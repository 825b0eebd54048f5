/** The listing page for a new item (src/app/marketplace/create/page.tsx):
    photos capped at five, the delivery-method toggles, the price parse,
    the submit rule and the item record built on submit. */
module MarketplaceCreate {
  import opened Wrappers
  import opened Records
  import opened Seqs
  import opened FormLists
  import Text
  import Tokens
  import Notifications
  import Submission

  const MaxPhotos: nat := 5
  const ListingTokens: int := 5
  const ListingReason := "商品投稿"

  /** The names the delivery badges toggle. */
  const DeliveryOptions: seq<string> := ["手渡し", "学内配送", "配送"]

  /** `parseInt(price) || 0`: a price that does not parse is 0. */
  function ParsePrice(text: string): (p: int)
    ensures Text.ParseInt(text).None? ==> p == 0
    ensures Text.ParseInt(text).Some? ==> p == Text.ParseInt(text).value
  {
    match Text.ParseInt(text)
    case None => 0
    case Some(v) => v
  }

  /** A price written in digits is read back as that number. */
  lemma ParsePriceOfDigits(n: nat)
    ensures ParsePrice(Text.NatToString(n)) == n
  {
    Text.ParseIntOfNatToString(n);
  }

  /** An empty or non-numeric price becomes 0; trailing text is ignored. */
  lemma ParsePriceExamples()
    ensures ParsePrice("") == 0
    ensures ParsePrice("abc") == 0
    ensures ParsePrice("12abc") == 12
  {
    Text.ParseIntEmpty();
    Text.ParseIntLetters();
    Text.ParseIntStopsAtNonDigit();
  }

  /** The item `handleSubmit` builds. */
  function ItemRecord(u: User, title: string, category: string, condition: string, priceText: string,
                      description: string, photos: seq<string>, location: string,
                      deliveryMethods: seq<string>, now: nat): (it: MarketItem)
    ensures it.sellerId == u.id && it.status == "available" && it.views == 0 && it.favorites == 0
    ensures it.price == ParsePrice(priceText) && it.createdAt == now
    ensures it.title == title && it.category == category && it.condition == condition
    ensures it.description == description && it.photos == photos && it.location == location
    ensures it.deliveryMethods == deliveryMethods
  {
    MarketItem("item-" + Text.NatToString(now), title, u.id, category, condition, ParsePrice(priceText),
               description, photos, location, deliveryMethods, "available", now, 0, 0)
  }

  function ListingNotice(title: string, itemId: string): (d: Notifications.Draft)
    ensures d.kind == Success && !d.read && d.actionUrl == Some("/marketplace/" + itemId)
    ensures d.title == "商品投稿完了" && d.message == "「" + title + "」の出品が完了しました"
  {
    Notifications.Draft(Success, "商品投稿完了", "「" + title + "」の出品が完了しました", false,
                        Some("/marketplace/" + itemId))
  }

  class MarketItemForm {
    var photos: seq<string>
    var title: string
    var category: string
    var condition: string
    /** The price as typed. */
    var price: string
    var description: string
    var location: string
    var deliveryMethods: seq<string>
    var isLoading: bool

    ghost predicate Valid()
      reads this
    {
      |photos| <= MaxPhotos && NoDup(deliveryMethods)
    }

    constructor ()
      ensures photos == [] && title == "" && category == "" && condition == "" && price == ""
      ensures description == "" && location == "大学内" && deliveryMethods == [] && !isLoading
      ensures Valid()
    {
      photos, title, category, condition, price := [], "", "", "", "";
      description, location, deliveryMethods, isLoading := "", "大学内", [], false;
    }

    /** `disabled={isLoading || !title || !category || !condition || !description}`;
        the price is not checked. */
    predicate SubmitDisabled()
      reads this
    {
      isLoading || title == "" || category == "" || condition == "" || description == ""
    }

    method HandleImageUpload(selected: Option<nat>, now: nat)
      requires Valid()
      modifies this
      ensures selected.None? ==> photos == old(photos)
      ensures selected.Some? ==>
                photos == AppendCapped(old(photos), UploadPaths("/items/mock-item-", ".jpg", now, selected.value), MaxPhotos)
      ensures deliveryMethods == old(deliveryMethods)
      ensures Valid()
      ensures title == old(title) && category == old(category) && condition == old(condition) && price == old(price)
      ensures description == old(description) && location == old(location) && isLoading == old(isLoading)
    {
      if selected.Some? {
        photos := AppendCapped(photos, UploadPaths("/items/mock-item-", ".jpg", now, selected.value), MaxPhotos);
      }
    }

    method RemovePhoto(index: int)
      requires Valid()
      modifies this
      ensures photos == RemoveAt(old(photos), index)
      ensures deliveryMethods == old(deliveryMethods)
      ensures Valid()
      ensures title == old(title) && category == old(category) && condition == old(condition) && price == old(price)
      ensures description == old(description) && location == old(location) && isLoading == old(isLoading)
    {
      photos := RemoveAt(photos, index);
    }

    /** `handleDeliveryMethodToggle`: removes the method when listed, else
        appends it; every other method keeps its place in the list. */
    method HandleDeliveryMethodToggle(m: string)
      requires Valid()
      modifies this
      ensures deliveryMethods == Toggle(old(deliveryMethods), m)
      ensures m in deliveryMethods <==> m !in old(deliveryMethods)
      ensures photos == old(photos) && title == old(title) && price == old(price)
      ensures category == old(category) && condition == old(condition)
      ensures description == old(description) && location == old(location)
      ensures Valid()
      ensures isLoading == old(isLoading)
    {
      ToggleNoDup(deliveryMethods, m);
      deliveryMethods := Toggle(deliveryMethods, m);
    }

    /** `handleSubmit`: nothing without a user; otherwise builds the item,
        credits 5 tokens and posts the completion notice linking to it. */
    method HandleSubmit(ledger: Tokens.TokenLedger, center: Notifications.NotificationCenter, now: nat)
      returns (item: Option<MarketItem>)
      requires ledger.auth == center.auth
      modifies this, ledger, ledger.auth, center
      ensures old(ledger.auth.user).None? ==>
                item.None? && ledger.transactions == old(ledger.transactions) &&
                ledger.auth.user == old(ledger.auth.user) && center.notifications == old(center.notifications)
      ensures old(ledger.auth.user).Some? ==>
                var u := old(ledger.auth.user.value);
                item == Some(ItemRecord(u, title, category, condition, price, description, photos, location,
                                        deliveryMethods, now)) &&
                ledger.Balance() == old(ledger.Balance()) + ListingTokens &&
                ledger.auth.user == Some(u.(tokens := u.tokens + ListingTokens)) &&
                ledger.transactions[..] == [Submission.Credit(u, ListingTokens, ListingReason, now)] +
                                           old(ledger.transactions[..]) &&
                center.notifications == [Notifications.Stamp(ListingNotice(title, item.value.id), u.id, now)] +
                                        old(center.notifications)
      ensures photos == old(photos) && deliveryMethods == old(deliveryMethods) && title == old(title)
      ensures category == old(category) && condition == old(condition) && price == old(price)
      ensures description == old(description) && location == old(location)
      ensures old(ledger.auth.user).None? ==> isLoading == old(isLoading)
      ensures old(ledger.auth.user).Some? ==> !isLoading
      ensures ledger.lastDailyReward == old(ledger.lastDailyReward) && ledger.auth.fixture == old(ledger.auth.fixture)
      ensures old(ledger.Consistent()) ==> ledger.Consistent()
    {
      if ledger.auth.user.None? {
        return None;
      }
      isLoading := true;
      var u := ledger.auth.user.value;
      var it := ItemRecord(u, title, category, condition, price, description, photos, location, deliveryMethods, now);
      Submission.RewardAndNotify(ledger, center, ListingTokens, ListingReason, ListingNotice(title, it.id), now);
      isLoading := false;
      return Some(it);
    }
  }
}
