/** What the top bar draws (src/components/layout/Header.tsx): the token
    balance and the notification bell appear only for a signed-in user; the
    bell carries the unread badge and lists the first five notifications. */
module Header {
  import opened Wrappers
  import opened Records
  import opened Seqs
  import Text
  import Notifications

  /** The badge text for an unread count: none at zero, `9+` past nine. */
  function Badge(unread: nat): (r: Option<string>)
    ensures r.None? <==> unread == 0
    ensures unread > 9 ==> r == Some("9+")
    ensures 0 < unread <= 9 ==> r.Some? && Text.ParseInt(r.value) == Some(unread) && |r.value| == 1
  {
    if unread == 0 then None
    else if unread > 9 then Some("9+")
    else
      Text.ParseIntOfNatToString(unread);
      Some(Text.NatToString(unread))
  }

  /** The open bell: its badge, the listed notifications and whether the
      "see all" button is drawn. */
  datatype Bell = Bell(badge: Option<string>, listed: seq<Notification>, seeAll: bool)

  datatype Bar = Bar(balance: Option<int>, bell: Option<Bell>)

  function View(currentUser: Option<User>, tokenBalance: int, notifications: seq<Notification>): (v: Bar)
    ensures v.balance.Some? <==> currentUser.Some?
    ensures v.balance.Some? ==> v.balance.value == tokenBalance
    ensures v.bell.Some? <==> currentUser.Some?
    ensures v.bell.Some? ==> v.bell.value.badge == Badge(Notifications.CountUnread(notifications))
    ensures v.bell.Some? ==> v.bell.value.listed <= notifications && |v.bell.value.listed| == Min(5, |notifications|)
    ensures v.bell.Some? ==> (v.bell.value.seeAll <==> |notifications| > 5)
  {
    if currentUser.None? then Bar(None, None)
    else
      Bar(Some(tokenBalance),
          Some(Bell(Badge(Notifications.CountUnread(notifications)), Take(notifications, 5), |notifications| > 5)))
  }

  /** "See all" is offered exactly when some notification is not listed,
      and then exactly five are listed. */
  lemma SeeAllWhenTruncated(u: User, tokenBalance: int, notifications: seq<Notification>)
    ensures var b := View(Some(u), tokenBalance, notifications).bell.value;
            (b.seeAll <==> |b.listed| < |notifications|) && (b.seeAll ==> |b.listed| == 5)
  {
  }

  /** After "mark all as read" the badge disappears. */
  lemma BadgeClearedByMarkAll(notifications: seq<Notification>)
    ensures Badge(Notifications.CountUnread(Notifications.MarkAll(notifications))) == None
  {
    Notifications.MarkAllClearsUnread(notifications);
  }

  /** The demo user's fixture rows show the badge `2`. */
  lemma DemoBadge()
    ensures Badge(Notifications.CountUnread(Notifications.FixtureNotifications)) == Some("2")
  {
    Notifications.DemoUserFixtures();
  }
}
