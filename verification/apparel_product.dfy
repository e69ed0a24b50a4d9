/**
 * The apparel product page: it looks the product up by the route id, tells
 * whether the signed-in user already has it in the cart, and adds it to or
 * removes it from the `cart` table.
 */
module ApparelPage {
  import opened Common

  datatype ApparelProduct = ApparelProduct(id: nat, name: string, isIgnored: bool)

  // ---------------------------------------------------------------------------
  // Product lookup

  /** `productsData.result.find((p) => p.id.toString() === id) || null` */
  function FindById(catalogue: seq<ApparelProduct>, routeId: string): (r: Option<ApparelProduct>)
    ensures r.None? <==> forall p :: p in catalogue ==> NatToString(p.id) != routeId
    ensures r.Some? ==> r.value in catalogue && NatToString(r.value.id) == routeId
  {
    if catalogue == [] then None
    else if NatToString(catalogue[0].id) == routeId then Some(catalogue[0])
    else
      assert forall p :: p in catalogue <==> p == catalogue[0] || p in catalogue[1..];
      FindById(catalogue[1..], routeId)
  }

  /** The product found is the first match in catalogue order. */
  lemma {:induction false} FindByIdIsFirst(catalogue: seq<ApparelProduct>, routeId: string, i: nat)
    requires i < |catalogue| && NatToString(catalogue[i].id) == routeId
    requires forall j :: 0 <= j < i ==> NatToString(catalogue[j].id) != routeId
    ensures FindById(catalogue, routeId) == Some(catalogue[i])
  {
    if i > 0 {
      assert NatToString(catalogue[0].id) != routeId;
      FindByIdIsFirst(catalogue[1..], routeId, i - 1);
    }
  }

  /** Looking up the decimal form of a number finds the first product with
      that number as its id, and nothing when no product has it. */
  lemma FindByNumber(catalogue: seq<ApparelProduct>, n: nat, i: nat)
    requires i < |catalogue| && catalogue[i].id == n
    requires forall j :: 0 <= j < i ==> catalogue[j].id != n
    ensures FindById(catalogue, NatToString(n)) == Some(catalogue[i])
  {
    forall j | 0 <= j < i ensures NatToString(catalogue[j].id) != NatToString(n) {
      if NatToString(catalogue[j].id) == NatToString(n) {
        NatToStringInjective(catalogue[j].id, n);
      }
    }
    FindByIdIsFirst(catalogue, NatToString(n), i);
  }

  lemma FindByNumberMissing(catalogue: seq<ApparelProduct>, n: nat)
    requires forall p :: p in catalogue ==> p.id != n
    ensures FindById(catalogue, NatToString(n)) == None
  {
    forall p | p in catalogue ensures NatToString(p.id) != NatToString(n) {
      if NatToString(p.id) == NatToString(n) {
        NatToStringInjective(p.id, n);
      }
    }
  }

  // ---------------------------------------------------------------------------
  // Cart rows of one apparel product

  /** The filter `.eq("user_id", u).eq("product_type", 'apparel').eq("product_id", id)`. */
  predicate Matches(row: CartRow, userId: string, productId: nat)
  {
    row.userId == userId && row.productType == "apparel" && row.productId == productId
  }

  function MatchesFn(userId: string, productId: nat): CartRow -> bool
  {
    (row: CartRow) => Matches(row, userId, productId)
  }

  function OtherRowsFn(userId: string, productId: nat): CartRow -> bool
  {
    (row: CartRow) => !Matches(row, userId, productId)
  }

  /** The exact count the head query returns. */
  function CountMatching(cart: seq<CartRow>, userId: string, productId: nat): (n: nat)
    ensures n == 0 <==> forall row :: row in cart ==> !Matches(row, userId, productId)
  {
    var m := Filter(cart, MatchesFn(userId, productId));
    assert m != [] ==> m[0] in m;
    |m|
  }

  /** The row `handleAddToCart` inserts. */
  function NewRow(userId: string, productId: nat): CartRow
  {
    CartRow(userId, "apparel", productId, None, None)
  }

  /** The delete of `handleRemoveFromCart`: every matching row goes, every
      other row stays, in order and with its multiplicity. */
  function RemoveMatching(cart: seq<CartRow>, userId: string, productId: nat): (r: seq<CartRow>)
    ensures forall row :: row in r <==> row in cart && !Matches(row, userId, productId)
    ensures forall row :: !Matches(row, userId, productId) ==> multiset(r)[row] == multiset(cart)[row]
  {
    FilterMultiset(cart, OtherRowsFn(userId, productId));
    Filter(cart, OtherRowsFn(userId, productId))
  }

  /** Removing twice leaves what removing once left. */
  lemma RemoveIdempotent(cart: seq<CartRow>, userId: string, productId: nat)
    ensures RemoveMatching(RemoveMatching(cart, userId, productId), userId, productId)
            == RemoveMatching(cart, userId, productId)
  {
    FilterAll(RemoveMatching(cart, userId, productId), OtherRowsFn(userId, productId));
  }

  /** The removed rows keep their relative order. */
  lemma RemoveKeepsOrder(cart: seq<CartRow>, userId: string, productId: nat)
    ensures Subsequence(RemoveMatching(cart, userId, productId), cart)
  {
    FilterIsSubsequence(cart, OtherRowsFn(userId, productId));
  }

  /** Adding a product and then removing it gives back the cart with that
      product removed. */
  lemma AddThenRemove(cart: seq<CartRow>, userId: string, productId: nat)
    ensures RemoveMatching(cart + [NewRow(userId, productId)], userId, productId)
            == RemoveMatching(cart, userId, productId)
  {
    FilterAppend(cart, NewRow(userId, productId), OtherRowsFn(userId, productId));
  }

  // ---------------------------------------------------------------------------
  // Add and remove as table operations

  /** The head count query: it answers, or fails with a PostgREST error code. */
  datatype CountReply = Counted | CountError(code: string)

  /** "PGRST116" is the code the add handler lets through. */
  const NoRowsCode := "PGRST116"

  datatype AddOutcome = NeedsSignIn | NoProduct | CheckFailed | AlreadyInCart | InsertFailed | Added

  datatype AddResult = AddResult(outcome: AddOutcome, cart: seq<CartRow>)

  /** `handleAddToCart` on the cart table. A failed count query reports a null
      count, which is not `> 0`, so the tolerated code goes on to insert. */
  function AddToCart(cart: seq<CartRow>, user: Option<string>, product: Option<ApparelProduct>,
                     reply: CountReply, insertFails: bool): (r: AddResult)
    ensures r.outcome == Added <==> r.cart != cart
    ensures r.cart != cart ==> user.Some? && product.Some? && r.cart == cart + [NewRow(user.value, product.value.id)]
    ensures user.Some? && product.Some?
            && ((reply.Counted? && CountMatching(cart, user.value, product.value.id) == 0) || reply == CountError(NoRowsCode))
            ==> r == if insertFails then AddResult(InsertFailed, cart)
                     else AddResult(Added, cart + [NewRow(user.value, product.value.id)])
  {
    if user.None? then AddResult(NeedsSignIn, cart)
    else if product.None? then AddResult(NoProduct, cart)
    else
      var u, id := user.value, product.value.id;
      if reply.CountError? && reply.code != NoRowsCode then AddResult(CheckFailed, cart)
      else if reply.Counted? && CountMatching(cart, u, id) > 0 then AddResult(AlreadyInCart, cart)
      else if insertFails then AddResult(InsertFailed, cart)
      else
        assert cart + [NewRow(u, id)] != cart by { assert |cart + [NewRow(u, id)]| == |cart| + 1; }
        AddResult(Added, cart + [NewRow(u, id)])
  }

  /** The guard cases: no user, an existing matching row, or a count error
      other than the tolerated code leave the table as it was. */
  lemma AddGuards(cart: seq<CartRow>, user: Option<string>, product: Option<ApparelProduct>,
                  reply: CountReply, insertFails: bool)
    ensures user.None? ==> AddToCart(cart, user, product, reply, insertFails) == AddResult(NeedsSignIn, cart)
    ensures user.Some? && product.Some? && reply.Counted? && CountMatching(cart, user.value, product.value.id) > 0
            ==> AddToCart(cart, user, product, reply, insertFails) == AddResult(AlreadyInCart, cart)
    ensures user.Some? && product.Some? && reply.CountError? && reply.code != NoRowsCode
            ==> AddToCart(cart, user, product, reply, insertFails) == AddResult(CheckFailed, cart)
  {
  }

  /** With a working count query, a user never holds two rows of one apparel
      product through this page: the invariant is kept by adding. */
  lemma AddKeepsAtMostOne(cart: seq<CartRow>, user: string, product: ApparelProduct, insertFails: bool)
    requires CountMatching(cart, user, product.id) <= 1
    ensures CountMatching(AddToCart(cart, Some(user), Some(product), Counted, insertFails).cart, user, product.id) <= 1
  {
    var r := AddToCart(cart, Some(user), Some(product), Counted, insertFails);
    if r.cart != cart {
      assert CountMatching(cart, user, product.id) == 0;
      FilterAppend(cart, NewRow(user, product.id), MatchesFn(user, product.id));
      assert Filter(cart, MatchesFn(user, product.id)) == [] by {
        var m := Filter(cart, MatchesFn(user, product.id));
        assert |m| == 0;
      }
    }
  }

  /** The tolerated error code skips the duplicate check: a product already in
      the cart is inserted a second time. */
  lemma ToleratedCodeInsertsDuplicate(cart: seq<CartRow>, user: string, product: ApparelProduct)
    requires CountMatching(cart, user, product.id) > 0
    ensures AddToCart(cart, Some(user), Some(product), CountError(NoRowsCode), false).outcome == Added
    ensures CountMatching(AddToCart(cart, Some(user), Some(product), CountError(NoRowsCode), false).cart,
                          user, product.id) >= 2
  {
    var m := Filter(cart, MatchesFn(user, product.id));
    FilterAppend(cart, NewRow(user, product.id), MatchesFn(user, product.id));
    assert |Filter(cart + [NewRow(user, product.id)], MatchesFn(user, product.id))| == |m| + 1;
  }

  /** `handleRemoveFromCart` on the cart table. */
  function RemoveFromCart(cart: seq<CartRow>, user: Option<string>, product: Option<ApparelProduct>,
                          deleteFails: bool): (r: seq<CartRow>)
    ensures user.None? || product.None? || deleteFails ==> r == cart
    ensures user.Some? && product.Some? && !deleteFails ==> r == RemoveMatching(cart, user.value, product.value.id)
  {
    if user.None? || product.None? || deleteFails then cart
    else RemoveMatching(cart, user.value, product.value.id)
  }

  /** Adding two products and removing the first leaves only the second's row. */
  lemma AddAddRemove(user: string, a: ApparelProduct, b: ApparelProduct)
    requires a.id != b.id
    ensures var afterA := AddToCart([], Some(user), Some(a), Counted, false).cart;
            var afterB := AddToCart(afterA, Some(user), Some(b), Counted, false).cart;
            RemoveFromCart(afterB, Some(user), Some(a), false) == [NewRow(user, b.id)]
  {
    var afterA := AddToCart([], Some(user), Some(a), Counted, false).cart;
    assert afterA == [NewRow(user, a.id)];
    assert CountMatching(afterA, user, b.id) == 0;
    var afterB := AddToCart(afterA, Some(user), Some(b), Counted, false).cart;
    assert afterB == [NewRow(user, a.id), NewRow(user, b.id)];
    var r := RemoveMatching(afterB, user, a.id);
    assert afterB == [NewRow(user, a.id)] + [NewRow(user, b.id)];
    FilterAppend([NewRow(user, a.id)], NewRow(user, b.id), OtherRowsFn(user, a.id));
    FilterAppend([], NewRow(user, a.id), OtherRowsFn(user, a.id));
    assert [] + [NewRow(user, a.id)] == [NewRow(user, a.id)];
  }

  // ---------------------------------------------------------------------------
  // The page

  /** How the head-only count of `fetchProductAndCart` comes back: with the
      count, with an error (the count is then null), or by throwing. */
  datatype CountFetch = CountAnswered | CountNull | CountThrown

  class ApparelProductPage {
    var cart: seq<CartRow>
    var product: Option<ApparelProduct>
    var inCart: bool
    var isAddingToCart: bool

    constructor (table: seq<CartRow>)
      ensures cart == table && product == None && !inCart && !isAddingToCart
    {
      cart := table;
      product := None;
      inCart, isAddingToCart := false, false;
    }

    /** `fetchProductAndCart`: look the product up by the route id; for a
        signed-in user, `inCart` tells whether a matching row exists. An error
        answer to the count reads as a null count, which is not `> 0`; a throw
        is swallowed by the `catch` and leaves `inCart` as it was. */
    method FetchProductAndCart(routeId: Option<string>, user: Option<string>,
                               catalogue: Option<seq<ApparelProduct>>, count: CountFetch)
      modifies this`product, this`inCart
      ensures routeId.None? || routeId == Some("") || catalogue.None? ==>
                product == old(product) && inCart == old(inCart)
      ensures routeId.Some? && routeId != Some("") && catalogue.Some? ==>
                product == FindById(catalogue.value, routeId.value)
      ensures routeId.Some? && routeId != Some("") && catalogue.Some? && user.Some? && product.Some?
                && !count.CountThrown? ==>
                inCart == (count.CountAnswered? && CountMatching(cart, user.value, product.value.id) > 0)
      ensures count.CountThrown? || user.None? || product.None? ==> inCart == old(inCart)
    {
      if routeId.None? || routeId.value == "" {
        return;
      }
      if catalogue.None? {
        return;
      }
      var foundProduct := FindById(catalogue.value, routeId.value);
      product := foundProduct;
      if user.Some? && foundProduct.Some? {
        match count
        case CountThrown =>
        case CountNull =>
          inCart := false;
        case CountAnswered =>
          var n := CountMatching(cart, user.value, foundProduct.value.id);
          inCart := n > 0;
      }
    }

    /** `handleAddToCart`; returns the route it navigates to, if any. */
    method HandleAddToCart(user: Option<string>, reply: CountReply, insertFails: bool)
      returns (navigateTo: Option<string>)
      modifies this`cart, this`inCart, this`isAddingToCart
      ensures var r := AddToCart(old(cart), user, product, reply, insertFails);
              cart == r.cart && inCart == (r.outcome == Added || old(inCart))
      ensures navigateTo == if user.None? then Some("/auth") else None
      ensures isAddingToCart == if user.None? || product.None? then old(isAddingToCart) else false
    {
      navigateTo := None;
      if user.None? || product.None? {
        if user.None? {
          navigateTo := Some("/auth");
        }
        return;
      }
      isAddingToCart := true;
      var u, id := user.value, product.value.id;
      if reply.CountError? && reply.code != NoRowsCode {
        isAddingToCart := false;
        return;
      }
      if reply.Counted? && CountMatching(cart, u, id) > 0 {
        isAddingToCart := false;
        return;
      }
      if !insertFails {
        cart := cart + [NewRow(u, id)];
        inCart := true;
      }
      isAddingToCart := false;
    }

    /** `handleRemoveFromCart`. */
    method HandleRemoveFromCart(user: Option<string>, deleteFails: bool)
      modifies this`cart, this`inCart, this`isAddingToCart
      ensures cart == RemoveFromCart(old(cart), user, product, deleteFails)
      ensures inCart == if user.Some? && product.Some? && !deleteFails then false else old(inCart)
      ensures isAddingToCart == if user.None? || product.None? then old(isAddingToCart) else false
    {
      if user.None? || product.None? {
        return;
      }
      isAddingToCart := true;
      if !deleteFails {
        cart := RemoveMatching(cart, user.value, product.value.id);
        inCart := false;
      }
      isAddingToCart := false;
    }
  }
}
