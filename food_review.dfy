/** The review submission page (src/app/food/review/page.tsx): photos capped
    at five, the tag list with its suggested and custom tags, the star
    rating, the submit rule and the review record built on submit. */
module FoodReview {
  import opened Wrappers
  import opened Records
  import opened Seqs
  import opened FormLists
  import Text
  import Tokens
  import Notifications
  import Submission

  const MaxPhotos: nat := 5
  const StarCount: nat := 5
  const ReviewTokens: int := 8
  const ReviewReason := "レビュー投稿"

  const SuggestedTags: seq<string> := [
    "ボリューム満点", "美味しい", "コスパ良し", "ヘルシー", "インスタ映え",
    "辛い", "甘い", "濃厚", "あっさり", "温かい", "冷たい", "サクサク",
    "もちもち", "ジューシー", "クリーミー", "香ばしい"
  ]

  /** The review `handleSubmit` builds. */
  function ReviewRecord(u: User, menuItemId: string, rating: int, comment: string,
                        photos: seq<string>, tags: seq<string>, now: nat): (r: Review)
    ensures r.authorId == u.id && r.helpful == 0 && r.createdAt == now
    ensures r.menuItemId == menuItemId && r.rating == rating && r.comment == comment
    ensures r.photos == photos && r.tags == tags
  {
    Review("review-" + Text.NatToString(now), u.id, menuItemId, rating, comment, photos, tags, now, 0)
  }

  /** `menuItem?.name || '料理'`: the reviewed dish's name, or the generic word. */
  function DishName(items: seq<MenuItem>, menuItemId: string): (name: string)
    ensures name != ""
    ensures (forall i :: 0 <= i < |items| ==> items[i].id != menuItemId) ==> name == "料理"
    ensures forall i :: 0 <= i < |items| && items[i].id == menuItemId &&
                        (forall k :: 0 <= k < i ==> items[k].id != menuItemId) ==>
                          name == (if items[i].name != "" then items[i].name else "料理")
  {
    match Find(items, (m: MenuItem) => m.id == menuItemId)
    case Some(m) => if m.name != "" then m.name else "料理"
    case None => "料理"
  }

  /** The dish name comes from the first menu entry with the id. */
  lemma DishNameOfFixture()
    ensures DishName(FixtureMenuItems, "2") == "カレーライス"
    ensures DishName(FixtureMenuItems, "9") == "料理"
  {
    var p := (m: MenuItem) => m.id == "2";
    assert !p(FixtureMenuItems[0]) && p(FixtureMenuItems[1]);
    assert FixtureMenuItems[1..][0] == FixtureMenuItems[1];
  }

  function ReviewNotice(dish: string, menuItemId: string): (d: Notifications.Draft)
    ensures d.kind == Success && !d.read && d.actionUrl == Some("/food/menu/" + menuItemId)
    ensures d.title == "レビュー投稿完了" && d.message == "「" + dish + "」のレビューを投稿しました"
  {
    Notifications.Draft(Success, "レビュー投稿完了", "「" + dish + "」のレビューを投稿しました", false,
                        Some("/food/menu/" + menuItemId))
  }

  class ReviewForm {
    var photos: seq<string>
    var tags: seq<string>
    var newTag: string
    var rating: int
    var menuItemId: string
    var comment: string
    var isLoading: bool

    /** At most five photos, a rating of 0 (none yet) to 5, no tag twice. */
    ghost predicate Valid()
      reads this
    {
      |photos| <= MaxPhotos && 0 <= rating <= StarCount && NoDup(tags)
    }

    constructor ()
      ensures photos == [] && tags == [] && newTag == "" && rating == 0
      ensures menuItemId == "" && comment == "" && !isLoading && Valid()
    {
      photos, tags, newTag, rating := [], [], "", 0;
      menuItemId, comment, isLoading := "", "", false;
    }

    /** `disabled={isLoading || !menuItemId || !comment || rating === 0}`. */
    predicate SubmitDisabled()
      reads this
    {
      isLoading || menuItemId == "" || comment == "" || rating == 0
    }

    /** `handleImageUpload`: new paths appended, then only the first five kept. */
    method HandleImageUpload(selected: Option<nat>, now: nat)
      requires Valid()
      modifies this
      ensures selected.None? ==> photos == old(photos)
      ensures selected.Some? ==>
                photos == AppendCapped(old(photos), UploadPaths("/reviews/mock-review-", ".jpg", now, selected.value), MaxPhotos)
      ensures tags == old(tags) && rating == old(rating) && newTag == old(newTag)
      ensures Valid()
      ensures menuItemId == old(menuItemId) && comment == old(comment) && isLoading == old(isLoading)
    {
      if selected.Some? {
        photos := AppendCapped(photos, UploadPaths("/reviews/mock-review-", ".jpg", now, selected.value), MaxPhotos);
      }
    }

    method RemovePhoto(index: int)
      requires Valid()
      modifies this
      ensures photos == RemoveAt(old(photos), index)
      ensures tags == old(tags) && rating == old(rating) && newTag == old(newTag)
      ensures Valid()
      ensures menuItemId == old(menuItemId) && comment == old(comment) && isLoading == old(isLoading)
    {
      photos := RemoveAt(photos, index);
    }

    /** `addTag`: appends the tag as given (not trimmed) unless it is listed. */
    method AddTag(tag: string)
      requires Valid()
      modifies this
      ensures tags == if tag in old(tags) then old(tags) else old(tags) + [tag]
      ensures photos == old(photos) && rating == old(rating) && newTag == old(newTag)
      ensures Valid()
      ensures menuItemId == old(menuItemId) && comment == old(comment) && isLoading == old(isLoading)
    {
      if tag !in tags {
        NoDupAppend(tags, tag);
        tags := tags + [tag];
      }
    }

    /** `addCustomTag`: the keyword rule, applied to the tag input. */
    method AddCustomTag()
      requires Valid()
      modifies this
      ensures tags == AddTrimmed(old(tags), old(newTag))
      ensures newTag == if Takes(old(tags), old(newTag)) then "" else old(newTag)
      ensures photos == old(photos) && rating == old(rating)
      ensures Valid()
      ensures menuItemId == old(menuItemId) && comment == old(comment) && isLoading == old(isLoading)
    {
      if Takes(tags, newTag) {
        NoDupAppend(tags, Text.Trim(newTag));
        tags := tags + [Text.Trim(newTag)];
        newTag := "";
      }
    }

    method RemoveTag(tag: string)
      requires Valid()
      modifies this
      ensures tags == RemoveAll(old(tags), tag)
      ensures photos == old(photos) && rating == old(rating) && newTag == old(newTag)
      ensures Valid()
      ensures menuItemId == old(menuItemId) && comment == old(comment) && isLoading == old(isLoading)
    {
      RemoveAllNoDup(tags, tag);
      tags := RemoveAll(tags, tag);
    }

    /** A suggested-tag badge: removes the tag when listed, else adds it. */
    method ClickSuggestedTag(tag: string)
      requires Valid()
      modifies this
      ensures tags == Toggle(old(tags), tag)
      ensures tag in tags <==> tag !in old(tags)
      ensures photos == old(photos) && rating == old(rating) && newTag == old(newTag)
      ensures Valid()
      ensures menuItemId == old(menuItemId) && comment == old(comment) && isLoading == old(isLoading)
    {
      if tag in tags {
        RemoveTag(tag);
      } else {
        AddTag(tag);
      }
    }

    /** `handleRatingClick(index + 1)` from the star at `index`. */
    method ClickStar(index: nat)
      requires Valid() && index < StarCount
      modifies this
      ensures rating == index + 1 && 1 <= rating <= StarCount
      ensures photos == old(photos) && tags == old(tags) && newTag == old(newTag)
      ensures Valid()
      ensures menuItemId == old(menuItemId) && comment == old(comment) && isLoading == old(isLoading)
    {
      rating := index + 1;
    }

    /** `handleSubmit`: nothing without a user or a rating; otherwise builds the
        review, credits 8 tokens and posts the completion notice. */
    method HandleSubmit(ledger: Tokens.TokenLedger, center: Notifications.NotificationCenter,
                        menuItems: seq<MenuItem>, now: nat) returns (review: Option<Review>)
      requires ledger.auth == center.auth
      modifies this, ledger, ledger.auth, center
      ensures old(ledger.auth.user).None? || rating == 0 ==>
                review.None? && ledger.transactions == old(ledger.transactions) &&
                ledger.auth.user == old(ledger.auth.user) && center.notifications == old(center.notifications)
      ensures old(ledger.auth.user).Some? && rating != 0 ==>
                var u := old(ledger.auth.user.value);
                review == Some(ReviewRecord(u, menuItemId, rating, comment, photos, tags, now)) &&
                ledger.Balance() == old(ledger.Balance()) + ReviewTokens &&
                ledger.auth.user == Some(u.(tokens := u.tokens + ReviewTokens)) &&
                ledger.transactions[..] == [Submission.Credit(u, ReviewTokens, ReviewReason, now)] +
                                           old(ledger.transactions[..]) &&
                center.notifications == [Notifications.Stamp(ReviewNotice(DishName(menuItems, menuItemId), menuItemId),
                                                             u.id, now)] + old(center.notifications)
      ensures photos == old(photos) && tags == old(tags) && rating == old(rating)
      ensures menuItemId == old(menuItemId) && comment == old(comment) && newTag == old(newTag)
      ensures old(ledger.auth.user).None? || rating == 0 ==> isLoading == old(isLoading)
      ensures old(ledger.auth.user).Some? && rating != 0 ==> !isLoading
      ensures ledger.lastDailyReward == old(ledger.lastDailyReward) && ledger.auth.fixture == old(ledger.auth.fixture)
      ensures old(ledger.Consistent()) ==> ledger.Consistent()
    {
      if ledger.auth.user.None? || rating == 0 {
        return None;
      }
      isLoading := true;
      var u := ledger.auth.user.value;
      var r := ReviewRecord(u, menuItemId, rating, comment, photos, tags, now);
      Submission.RewardAndNotify(ledger, center, ReviewTokens, ReviewReason,
                                 ReviewNotice(DishName(menuItems, menuItemId), menuItemId), now);
      isLoading := false;
      return Some(r);
    }
  }
}
