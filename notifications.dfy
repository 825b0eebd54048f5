/** The notification provider (src/context/NotificationContext.tsx): the
    current user's notification list, newest first, with the operations that
    replace it, the unread counter and the `createNotification` builders. */
module Notifications {
  import opened Wrappers
  import opened Records
  import opened Seqs
  import Text
  import Auth

  /** The `mockNotifications` fixture rows (dates read as UTC). */
  const FixtureNotifications: seq<Notification> := [
    Notification("1", "1", Info, "新しいイベント", "バスケットボール定期戦への参加者を募集中です", false, 1749549600000, Some("/sports/1")),
    Notification("2", "1", Success, "トークン獲得", "投稿へのいいねで5トークン獲得しました", false, 1749547800000, None),
    Notification("3", "1", Warning, "申込期限", "企業説明会の申込期限が近づいています", true, 1749481200000, Some("/career/events"))
  ]

  /** What a caller passes to `addNotification`:
      `Omit<Notification, 'id' | 'userId' | 'createdAt'>`. */
  datatype Draft = Draft(kind: NotificationType, title: string, message: string, read: bool, actionUrl: Option<string>)

  predicate IsUnread(n: Notification)
  {
    !n.read
  }

  /** `notifications.filter(n => !n.read).length`. */
  function CountUnread(ns: seq<Notification>): (c: nat)
    ensures c <= |ns|
  {
    CountWhere(ns, IsUnread)
  }

  /** The counter is zero exactly when every entry has been read. */
  lemma CountUnreadZero(ns: seq<Notification>)
    ensures CountUnread(ns) == 0 <==> forall i :: 0 <= i < |ns| ==> ns[i].read
  {
    CountWhereZero(ns, IsUnread);
  }

  /** The list loaded for a user: the saved one, or that user's fixture
      rows when nothing is saved or the saved text does not parse. Nothing
      is loaded without a user. */
  function InitialNotifications(user: Option<User>, saved: Stored<seq<Notification>>): (r: seq<Notification>)
    ensures user.None? ==> r == []
    ensures user.Some? && saved.Present? ==> r == saved.value
    ensures user.Some? && !saved.Present? ==>
              (forall i :: 0 <= i < |r| ==> r[i].userId == user.value.id && r[i] in FixtureNotifications) &&
              (forall i :: 0 <= i < |FixtureNotifications| && FixtureNotifications[i].userId == user.value.id ==>
                 FixtureNotifications[i] in r)
  {
    match user
    case None => []
    case Some(u) =>
      if saved.Present? then saved.value
      else Filter(FixtureNotifications, (n: Notification) => n.userId == u.id)
  }

  /** Without a saved list, a user's fixture rows keep the fixture's order. */
  lemma InitialKeepsFixtureOrder(u: User, saved: Stored<seq<Notification>>)
    ensures !saved.Present? ==> IsSubsequence(InitialNotifications(Some(u), saved), FixtureNotifications)
  {
    FilterIsSubsequence(FixtureNotifications, (n: Notification) => n.userId == u.id);
  }

  /** The demo user starts with all three fixture rows, two of them unread. */
  lemma DemoUserFixtures()
    ensures InitialNotifications(Some(DefaultUser()), Missing) == FixtureNotifications
    ensures CountUnread(FixtureNotifications) == 2
  {
    FilterKeepsAll(FixtureNotifications, (n: Notification) => n.userId == DefaultUser().id);
    var f := FixtureNotifications;
    CountWhereCons(f, IsUnread);
    CountWhereCons(f[1..], IsUnread);
    CountWhereCons(f[2..], IsUnread);
    assert f[2..][1..] == [];
  }

  /** `notifications.map(n => n.id === id ? { ...n, read: true } : n)`. */
  function MarkRead(ns: seq<Notification>, id: string): (r: seq<Notification>)
    ensures |r| == |ns|
    ensures forall i :: 0 <= i < |ns| ==> r[i].(read := ns[i].read) == ns[i]
    ensures forall i :: 0 <= i < |ns| ==> (r[i].read <==> ns[i].read || ns[i].id == id)
  {
    seq(|ns|, i requires 0 <= i < |ns| => if ns[i].id == id then ns[i].(read := true) else ns[i])
  }

  /** Marking read touches only the entries with that id. */
  lemma MarkReadOthersUnchanged(ns: seq<Notification>, id: string, i: nat)
    requires i < |ns| && ns[i].id != id
    ensures MarkRead(ns, id)[i] == ns[i]
  {
  }

  lemma MarkReadIdempotent(ns: seq<Notification>, id: string)
    ensures MarkRead(MarkRead(ns, id), id) == MarkRead(ns, id)
  {
  }

  /** The unread counter drops by the number of unread entries carrying the id. */
  lemma {:induction false} MarkReadCount(ns: seq<Notification>, id: string)
    ensures CountUnread(MarkRead(ns, id)) ==
            CountUnread(ns) - CountWhere(ns, (n: Notification) => IsUnread(n) && n.id == id)
    decreases |ns|
  {
    if ns != [] {
      var m := MarkRead(ns, id);
      assert m[1..] == MarkRead(ns[1..], id);
      MarkReadCount(ns[1..], id);
      CountWhereCons(m, IsUnread);
      CountWhereCons(ns, IsUnread);
      CountWhereCons(ns, (n: Notification) => IsUnread(n) && n.id == id);
    }
  }

  /** `notifications.map(n => ({ ...n, read: true }))`. */
  function MarkAll(ns: seq<Notification>): (r: seq<Notification>)
    ensures |r| == |ns|
    ensures forall i :: 0 <= i < |ns| ==> r[i] == ns[i].(read := true)
  {
    seq(|ns|, i requires 0 <= i < |ns| => ns[i].(read := true))
  }

  /** After marking all read nothing is unread. */
  lemma MarkAllClearsUnread(ns: seq<Notification>)
    ensures CountUnread(MarkAll(ns)) == 0
  {
    CountUnreadZero(MarkAll(ns));
  }

  /** `notifications.filter(n => n.id !== id)`. */
  function WithoutId(ns: seq<Notification>, id: string): (r: seq<Notification>)
    ensures forall i :: 0 <= i < |r| ==> r[i].id != id && r[i] in ns
    ensures forall i :: 0 <= i < |ns| && ns[i].id != id ==> ns[i] in r
  {
    Filter(ns, (n: Notification) => n.id != id)
  }

  /** Removal keeps the remaining entries in their order, and removing an id
      that is not there changes nothing. */
  lemma WithoutIdKeepsOrder(ns: seq<Notification>, id: string)
    ensures IsSubsequence(WithoutId(ns, id), ns)
    ensures (forall i :: 0 <= i < |ns| ==> ns[i].id != id) ==> WithoutId(ns, id) == ns
  {
    FilterIsSubsequence(ns, (n: Notification) => n.id != id);
    if forall i :: 0 <= i < |ns| ==> ns[i].id != id {
      FilterKeepsAll(ns, (n: Notification) => n.id != id);
    }
  }

  /** Removal drops exactly the entries carrying the id, every copy of a
      repeated record included: the list shrinks by their number. */
  lemma {:induction false} WithoutIdCount(ns: seq<Notification>, id: string)
    ensures |WithoutId(ns, id)| == |ns| - CountWhere(ns, (n: Notification) => n.id == id)
    decreases |ns|
  {
    if ns != [] {
      WithoutIdCount(ns[1..], id);
      CountWhereCons(ns, (n: Notification) => n.id == id);
    }
  }

  /** The entry `addNotification` creates from a draft. */
  function Stamp(data: Draft, userId: string, now: nat): (n: Notification)
    ensures !n.read && n.userId == userId && n.createdAt == now
    ensures n.kind == data.kind && n.title == data.title && n.message == data.message
    ensures n.actionUrl == data.actionUrl
  {
    Notification(Text.NatToString(now), userId, data.kind, data.title, data.message, false, now, data.actionUrl)
  }

  /** A new entry is always unread, so the counter goes up by one. */
  lemma AddRaisesUnread(data: Draft, userId: string, now: nat, ns: seq<Notification>)
    ensures CountUnread([Stamp(data, userId, now)] + ns) == CountUnread(ns) + 1
  {
    var r := [Stamp(data, userId, now)] + ns;
    CountWhereCons(r, IsUnread);
    assert r[1..] == ns;
  }

  /** The `createNotification` builders and their arguments. */
  datatype Template =
    | EventParticipationNotice(eventTitle: string, eventId: string)
    | EventReminder(eventTitle: string, eventId: string)
    | NewMessage(senderName: string, conversationId: string)
    | ItemSold(itemTitle: string, itemId: string)
    | AnswerAccepted(questionTitle: string, questionId: string)
    | ApplicationDeadline(companyName: string, daysLeft: int)
  {
    /** The name the message quotes. */
    function Subject(): string
    {
      match this
      case EventParticipationNotice(t, _) => t
      case EventReminder(t, _) => t
      case NewMessage(n, _) => n
      case ItemSold(t, _) => t
      case AnswerAccepted(t, _) => t
      case ApplicationDeadline(c, _) => c
    }
  }

  function Build(t: Template): (d: Draft)
    ensures !d.read && d.actionUrl.Some?
    ensures t.EventParticipationNotice? ==>
              d.kind == Success && d.title == "イベント参加" && d.actionUrl == Some("/sports/" + t.eventId)
    ensures t.EventReminder? ==>
              d.kind == Info && d.title == "イベントリマインダー" && d.actionUrl == Some("/sports/" + t.eventId)
    ensures t.NewMessage? ==>
              d.kind == Info && d.title == "新しいメッセージ" && d.actionUrl == Some("/messages/" + t.conversationId)
    ensures t.ItemSold? ==>
              d.kind == Success && d.title == "商品が売れました" && d.actionUrl == Some("/marketplace/" + t.itemId)
    ensures t.AnswerAccepted? ==>
              d.kind == Success && d.title == "ベストアンサー選出" && d.actionUrl == Some("/research/qa/" + t.questionId)
    ensures t.ApplicationDeadline? ==> d.kind == Warning && d.title == "応募期限" && d.actionUrl == Some("/career")
  {
    match t
    case EventParticipationNotice(title, id) =>
      Draft(Success, "イベント参加", title + "への参加が確定しました", false, Some("/sports/" + id))
    case EventReminder(title, id) =>
      Draft(Info, "イベントリマインダー", title + "の開始まで1時間です", false, Some("/sports/" + id))
    case NewMessage(name, id) =>
      Draft(Info, "新しいメッセージ", name + "からメッセージが届きました", false, Some("/messages/" + id))
    case ItemSold(title, id) =>
      Draft(Success, "商品が売れました", title + "の購入希望者が現れました", false, Some("/marketplace/" + id))
    case AnswerAccepted(title, id) =>
      Draft(Success, "ベストアンサー選出", "「" + title + "」の回答がベストアンサーに選ばれました", false, Some("/research/qa/" + id))
    case ApplicationDeadline(company, days) =>
      Draft(Warning, "応募期限", company + "の応募期限まで" + Text.IntToString(days) + "日です", false, Some("/career"))
  }

  /** Every builder quotes its subject in the message. */
  lemma BuildQuotesSubject(t: Template)
    ensures exists i :: Text.OccursAt(Build(t).message, t.Subject(), i)
  {
    var m := Build(t).message;
    var s := t.Subject();
    if t.AnswerAccepted? {
      assert m[1..1 + |s|] == s;
      assert Text.OccursAt(m, s, 1);
    } else {
      assert m[0..|s|] == s;
      assert Text.OccursAt(m, s, 0);
    }
  }

  /** Different builders give different titles. */
  lemma BuildTitlesDistinct(t1: Template, t2: Template)
    requires t1.EventParticipationNotice? != t2.EventParticipationNotice? || t1.EventReminder? != t2.EventReminder? ||
             t1.NewMessage? != t2.NewMessage? || t1.ItemSold? != t2.ItemSold? ||
             t1.AnswerAccepted? != t2.AnswerAccepted?
    ensures Build(t1).title != Build(t2).title
  {
  }

  class NotificationCenter {
    const auth: Auth.AuthSession
    var notifications: seq<Notification>

    constructor (auth: Auth.AuthSession, saved: Stored<seq<Notification>>)
      ensures this.auth == auth
      ensures notifications == InitialNotifications(auth.user, saved)
    {
      this.auth := auth;
      notifications := InitialNotifications(auth.user, saved);
    }

    /** `unreadCount`. */
    function UnreadCount(): (c: nat)
      reads this
      ensures c <= |notifications|
    {
      CountUnread(notifications)
    }

    /** Ignored with no user; otherwise puts the stamped entry in front. */
    method AddNotification(data: Draft, now: nat)
      modifies this
      ensures auth.user.None? ==> notifications == old(notifications)
      ensures auth.user.Some? ==> notifications == [Stamp(data, auth.user.value.id, now)] + old(notifications)
      ensures auth.user.Some? ==> UnreadCount() == old(UnreadCount()) + 1
    {
      if auth.user.None? {
        return;
      }
      AddRaisesUnread(data, auth.user.value.id, now, notifications);
      notifications := [Stamp(data, auth.user.value.id, now)] + notifications;
    }

    method MarkAsRead(id: string)
      modifies this
      ensures notifications == MarkRead(old(notifications), id)
      ensures UnreadCount() <= old(UnreadCount())
    {
      MarkReadCount(notifications, id);
      notifications := MarkRead(notifications, id);
    }

    method MarkAllAsRead()
      modifies this
      ensures notifications == MarkAll(old(notifications))
      ensures UnreadCount() == 0
    {
      notifications := MarkAll(notifications);
      MarkAllClearsUnread(old(notifications));
    }

    method ClearAll()
      modifies this
      ensures notifications == [] && UnreadCount() == 0
    {
      notifications := [];
    }

    method RemoveNotification(id: string)
      modifies this
      ensures notifications == WithoutId(old(notifications), id)
    {
      notifications := WithoutId(notifications, id);
    }
  }
}
