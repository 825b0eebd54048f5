/** The food page (src/app/food/page.tsx): the menu category filter, the
    reviews shown with their author and dish, the rating stars and the meal
    invitation button. */
module Food {
  import opened Wrappers
  import opened Records
  import opened Seqs

  /** `filteredMenuItems`. */
  function FilteredMenuItems(items: seq<MenuItem>, category: string): (r: seq<MenuItem>)
    ensures category == "all" ==> r == items
    ensures category != "all" ==>
              (forall i :: 0 <= i < |r| ==> r[i] in items && r[i].category == category) &&
              (forall i :: 0 <= i < |items| && items[i].category == category ==> items[i] in r)
  {
    if category == "all" then items else Filter(items, (m: MenuItem) => m.category == category)
  }

  lemma FilteredMenuItemsInOrder(items: seq<MenuItem>, category: string)
    ensures IsSubsequence(FilteredMenuItems(items, category), items)
  {
    if category == "all" {
      FilterKeepsAll(items, (m: MenuItem) => true);
      FilterIsSubsequence(items, (m: MenuItem) => true);
    } else {
      FilterIsSubsequence(items, (m: MenuItem) => m.category == category);
    }
  }

  /** The fixture menu has two Japanese dishes and no Chinese one. */
  lemma FixtureMenuCategories()
    ensures |FilteredMenuItems(FixtureMenuItems, "japanese")| == 2
    ensures FilteredMenuItems(FixtureMenuItems, "chinese") == []
  {
    var f := FixtureMenuItems;
    var j := (m: MenuItem) => m.category == "japanese";
    assert f[1..][1..] == [f[2]];
    assert Filter([f[2]], j) == [] by { assert [f[2]][1..] == []; }
  }

  /** A review card: the review with its resolved author and dish. */
  datatype ReviewCard = ReviewCard(review: Review, author: User, dish: MenuItem)

  function Resolve(r: Review, users: seq<User>, items: seq<MenuItem>): (c: Option<ReviewCard>)
    ensures c.Some? ==> c.value.review == r && c.value.author in users && c.value.author.id == r.authorId &&
                        c.value.dish in items && c.value.dish.id == r.menuItemId
    ensures c.None? <==> (forall i :: 0 <= i < |users| ==> users[i].id != r.authorId) ||
                         (forall i :: 0 <= i < |items| ==> items[i].id != r.menuItemId)
  {
    var author := Find(users, (u: User) => u.id == r.authorId);
    var dish := Find(items, (m: MenuItem) => m.id == r.menuItemId);
    if author.Some? && dish.Some? then Some(ReviewCard(r, author.value, dish.value)) else None
  }

  predicate Resolves(r: Review, users: seq<User>, items: seq<MenuItem>)
  {
    Resolve(r, users, items).Some?
  }

  /** The cards drawn: one per review whose author and dish both resolve, in order. */
  function ShownReviews(reviews: seq<Review>, users: seq<User>, items: seq<MenuItem>): (r: seq<ReviewCard>)
    ensures |r| <= |reviews|
    ensures forall i :: 0 <= i < |r| ==> r[i].review in reviews && Resolve(r[i].review, users, items) == Some(r[i])
  {
    var kept := Filter(reviews, (v: Review) => Resolves(v, users, items));
    seq(|kept|, i requires 0 <= i < |kept| => Resolve(kept[i], users, items).value)
  }

  /** Every review whose author and dish resolve is drawn. */
  lemma ShownReviewsComplete(reviews: seq<Review>, users: seq<User>, items: seq<MenuItem>, k: nat)
    requires k < |reviews| && Resolves(reviews[k], users, items)
    ensures exists i :: 0 <= i < |ShownReviews(reviews, users, items)| &&
                        ShownReviews(reviews, users, items)[i].review == reviews[k]
  {
    var kept := Filter(reviews, (v: Review) => Resolves(v, users, items));
    assert reviews[k] in kept;
    var i :| 0 <= i < |kept| && kept[i] == reviews[k];
    assert ShownReviews(reviews, users, items)[i].review == reviews[k];
  }

  /** Star `i` (0 to 4) is filled when `i < rating`. */
  predicate StarFilled(i: nat, rating: int)
  {
    i < rating
  }

  /** How many of the first `n` stars are filled. */
  function FilledStars(n: nat, rating: int): nat
  {
    if n == 0 then 0 else FilledStars(n - 1, rating) + (if StarFilled(n - 1, rating) then 1 else 0)
  }

  /** Of the five stars, the rating clamped to 0..5 are filled. */
  lemma {:induction false} FilledStarsCount(n: nat, rating: int)
    ensures FilledStars(n, rating) == if rating <= 0 then 0 else Min(n, rating)
  {
    if n > 0 {
      FilledStarsCount(n - 1, rating);
    }
  }

  /** The invitation button is disabled when the invitation is not open or is full. */
  predicate JoinDisabled(inv: MealInvitation)
  {
    inv.status != "open" || inv.currentPeople >= inv.maxPeople
  }

  /** Closed takes precedence over full. */
  function JoinCaption(inv: MealInvitation): (caption: string)
    ensures inv.status != "open" ==> caption == "締切済み"
    ensures inv.status == "open" && inv.currentPeople >= inv.maxPeople ==> caption == "満員"
  {
    if inv.status != "open" then "締切済み"
    else if inv.currentPeople >= inv.maxPeople then "満員"
    else "参加する"
  }

  /** The button can be pressed exactly when it offers to join. */
  lemma JoinCaptionAgrees(inv: MealInvitation)
    ensures JoinCaption(inv) == "参加する" <==> !JoinDisabled(inv)
  {
  }
}
