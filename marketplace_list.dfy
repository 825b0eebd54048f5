/** The marketplace listing (src/app/marketplace/page.tsx): the favourites
    set, the category and search filter, and the labels on each card. */
module MarketplaceList {
  import opened Seqs
  import opened Records
  import Text

  /** `selectedCategory === 'all' || item.category === selectedCategory`. */
  predicate MatchesCategory(item: MarketItem, category: string)
  {
    category == "all" || item.category == category
  }

  /** The search term, lower-cased, occurs in the lower-cased title or description. */
  predicate MatchesSearch(item: MarketItem, term: string)
  {
    Text.Contains(Text.ToLower(item.title), Text.ToLower(term)) ||
    Text.Contains(Text.ToLower(item.description), Text.ToLower(term))
  }

  predicate Shown(item: MarketItem, category: string, term: string)
  {
    MatchesCategory(item, category) && MatchesSearch(item, term)
  }

  /** `filteredItems`. */
  function FilteredItems(items: seq<MarketItem>, category: string, term: string): (r: seq<MarketItem>)
    ensures forall i :: 0 <= i < |r| ==> r[i] in items && Shown(r[i], category, term)
    ensures forall i :: 0 <= i < |items| && Shown(items[i], category, term) ==> items[i] in r
  {
    Filter(items, (it: MarketItem) => Shown(it, category, term))
  }

  /** The shown items keep the order of the full list. */
  lemma FilteredKeepsOrder(items: seq<MarketItem>, category: string, term: string)
    ensures IsSubsequence(FilteredItems(items, category, term), items)
  {
    FilterIsSubsequence(items, (it: MarketItem) => Shown(it, category, term));
  }

  /** With category 'all' and an empty search every item is shown. */
  lemma EverythingByDefault(items: seq<MarketItem>)
    ensures FilteredItems(items, "all", "") == items
  {
    forall i | 0 <= i < |items| ensures Shown(items[i], "all", "") {
      Text.ContainsEmpty(Text.ToLower(items[i].title));
    }
    FilterKeepsAll(items, (it: MarketItem) => Shown(it, "all", ""));
  }

  /** The search ignores the case of ASCII letters. */
  lemma SearchIgnoresCase(item: MarketItem, term: string)
    ensures MatchesSearch(item, Text.ToLower(term)) <==> MatchesSearch(item, term)
  {
    Text.ToLowerIdempotent(term);
  }

  /** `getConditionLabel`. */
  function ConditionLabel(condition: string): (caption: string)
    ensures condition !in {"new", "like-new", "good", "fair"} ==> caption == condition
    ensures condition in {"new", "like-new", "good", "fair"} ==> caption !in {"new", "like-new", "good", "fair"}
  {
    match condition
    case "new" => "新品"
    case "like-new" => "美品"
    case "good" => "良好"
    case "fair" => "普通"
    case _ => condition
  }

  /** The four known conditions get four different labels. */
  lemma ConditionLabelsDistinct(c1: string, c2: string)
    requires c1 in {"new", "like-new", "good", "fair"} && c2 in {"new", "like-new", "good", "fair"} && c1 != c2
    ensures ConditionLabel(c1) != ConditionLabel(c2)
  {
  }

  /** The price line: `無料` or a yen amount (its digit grouping is not modelled). */
  datatype PriceTag = Free | Yen(amount: int)

  function PriceLabel(price: int): (t: PriceTag)
    ensures t.Free? <==> price == 0
    ensures t.Yen? ==> t.amount == price
  {
    if price == 0 then Free else Yen(price)
  }

  /** The card button is disabled unless the item is available. */
  predicate ButtonDisabled(status: string)
  {
    status != "available"
  }

  function ButtonLabel(status: string): (caption: string)
    ensures caption == "売り切れ" <==> status == "sold"
    ensures caption == "予約済み" <==> status == "reserved"
  {
    if status == "sold" then "売り切れ" else if status == "reserved" then "予約済み" else "詳細を見る"
  }

  /** An enabled button always offers the details; a sold-out or reserved
      label is always on a disabled button. */
  lemma ButtonLabelAgrees(status: string)
    ensures !ButtonDisabled(status) ==> ButtonLabel(status) == "詳細を見る"
    ensures ButtonLabel(status) != "詳細を見る" ==> ButtonDisabled(status)
  {
  }

  /** Adds the id when absent, removes it when present. */
  function Flip(s: set<string>, id: string): (r: set<string>)
    ensures id in r <==> id !in s
    ensures forall x :: x != id ==> (x in r <==> x in s)
  {
    if id in s then s - {id} else s + {id}
  }

  lemma FlipTwice(s: set<string>, id: string)
    ensures Flip(Flip(s, id), id) == s
  {
  }

  class FavoritesView {
    var favorites: set<string>

    constructor ()
      ensures favorites == {}
    {
      favorites := {};
    }

    /** `handleToggleFavorite`: copies the set, then deletes or adds the id. */
    method HandleToggleFavorite(itemId: string)
      modifies this
      ensures favorites == Flip(old(favorites), itemId)
    {
      var next := favorites;
      if itemId in next {
        next := next - {itemId};
      } else {
        next := next + {itemId};
      }
      favorites := next;
    }

    predicate IsFavorite(itemId: string)
      reads this
    {
      itemId in favorites
    }
  }
}
