/**
 * The product card component: the badge class chosen for a card's rarity and
 * the route a click on the card opens.
 */
module ProductCard {
  import opened Common

  const Muted := "bg-muted text-muted-foreground"
  const Secondary := "bg-secondary text-secondary-foreground"
  const Primary := "bg-primary text-primary-foreground"
  const Gold := "bg-gradient-gold text-primary-foreground"
  const Accent := "bg-accent text-accent-foreground"

  /** The rarity names the switch recognises, in lower case. */
  predicate KnownRarity(lower: string)
  {
    lower == "common" || lower == "uncommon" || lower == "rare"
    || lower == "ultra rare" || lower == "secret rare"
  }

  /** `getRarityColor`: a switch on the lower-cased rarity with a default branch. */
  function RarityColor(rarity: string): (cls: string)
    ensures cls in {Muted, Secondary, Primary, Gold, Accent}
    ensures !KnownRarity(ToLower(rarity)) ==> cls == Muted
  {
    match ToLower(rarity)
    case "common" => Muted
    case "uncommon" => Secondary
    case "rare" => Primary
    case "ultra rare" => Gold
    case "secret rare" => Accent
    case _ => Muted
  }

  /** Each recognised rarity gets its own class, whatever the letter case. */
  lemma RarityTable(rarity: string)
    ensures ToLower(rarity) == "common" ==> RarityColor(rarity) == Muted
    ensures ToLower(rarity) == "uncommon" ==> RarityColor(rarity) == Secondary
    ensures ToLower(rarity) == "rare" ==> RarityColor(rarity) == Primary
    ensures ToLower(rarity) == "ultra rare" ==> RarityColor(rarity) == Gold
    ensures ToLower(rarity) == "secret rare" ==> RarityColor(rarity) == Accent
  {
  }

  /** Two spellings with the same lower-case form get the same class; in
      particular the class of a rarity is the class of its lower-case form. */
  lemma RarityCaseInsensitive(a: string, b: string)
    requires ToLower(a) == ToLower(b)
    ensures RarityColor(a) == RarityColor(b)
    ensures RarityColor(a) == RarityColor(ToLower(a))
  {
    ToLowerIdempotent(a);
  }

  /** "common" and every unrecognised rarity share the muted class; among the
      five names, only "common" shares it. */
  lemma CommonIsDefault(rarity: string)
    requires KnownRarity(ToLower(rarity))
    ensures RarityColor(rarity) == Muted <==> ToLower(rarity) == "common"
  {
  }

  /** `handleCardClick`: the card navigates to `/product/<id>`. */
  function ClickPath(id: string): (path: string)
    ensures StripPrefix(ProductRoute, path) == Some(id)
  {
    ProductRoute + id
  }
}

/**
 * The card detail page keeps its own copy of the rarity switch and applies it
 * to the rarity of its built-in sample product.
 */
module ProductDetail {
  import opened Common
  import ProductCard

  /** The detail page's `getRarityColor`, written out again as in the page. */
  function RarityColor(rarity: string): (cls: string)
    ensures !ProductCard.KnownRarity(ToLower(rarity)) ==> cls == ProductCard.Muted
  {
    match ToLower(rarity)
    case "common" => "bg-muted text-muted-foreground"
    case "uncommon" => "bg-secondary text-secondary-foreground"
    case "rare" => "bg-primary text-primary-foreground"
    case "ultra rare" => "bg-gradient-gold text-primary-foreground"
    case "secret rare" => "bg-accent text-accent-foreground"
    case _ => "bg-muted text-muted-foreground"
  }

  /** The copy agrees with the product card's switch on every input. */
  lemma SameAsProductCard(rarity: string)
    ensures RarityColor(rarity) == ProductCard.RarityColor(rarity)
  {
  }

  /** The sample product's rarity. */
  const MockRarity := "Ultra Rare"

  lemma MockRarityIsGold()
    ensures RarityColor(MockRarity) == "bg-gradient-gold text-primary-foreground"
  {
    assert ToLower(MockRarity) == "ultra rare";
  }

  /** The detail page is case-insensitive too. */
  lemma DetailCaseInsensitive(a: string, b: string)
    requires ToLower(a) == ToLower(b)
    ensures RarityColor(a) == RarityColor(b)
  {
  }
}
