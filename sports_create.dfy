/** The event creation page (src/app/sports/create/page.tsx): the form with
    its equipment toggle, the submit rule, the earliest selectable time and
    the event record built on submit. */
module SportsCreate {
  import opened Wrappers
  import opened Records
  import opened Seqs
  import Text
  import Tokens
  import Notifications
  import Submission

  const EventTokens: int := 10
  const EventReason := "イベント作成"

  /** The event `handleSubmit` builds; its date is the text `${date}T${time}`
      (parsing it is not modelled) and `equipmentProvided` is not part of it. */
  function EventRecord(u: User, title: string, sport: string, date: string, time: string, location: string,
                       maxParticipants: string, description: string, skillLevel: string, now: nat): (e: SportsEvent)
    ensures e.currentParticipants == [u] && e.status == "upcoming"
    ensures e.maxParticipants == Text.ParseInt(maxParticipants)
    ensures e.date == date + "T" + time
    ensures e.title == title && e.sport == sport && e.location == location
    ensures e.description == description && e.skillLevel == skillLevel
  {
    SportsEvent("event-" + Text.NatToString(now), title, sport, date + "T" + time, location,
                Text.ParseInt(maxParticipants), [u], description, skillLevel, "upcoming")
  }

  /** The default limit text reads as 10 participants. */
  lemma DefaultLimitIsTen()
    ensures Text.ParseInt("10") == Some(10)
  {
    assert Text.NatToString(10) == "10" by {
      assert Text.NatToString(1) == "1";
    }
    Text.ParseIntOfNatToString(10);
  }

  function EventNotice(title: string, eventId: string): (d: Notifications.Draft)
    ensures d.kind == Success && !d.read && d.actionUrl == Some("/sports/" + eventId)
    ensures d.title == "イベント作成完了" && d.message == "「" + title + "」のイベントを作成しました"
  {
    Notifications.Draft(Success, "イベント作成完了", "「" + title + "」のイベントを作成しました", false,
                        Some("/sports/" + eventId))
  }

  /** `minTime`: the current `HH:MM` when the chosen date is today, else midnight. */
  function MinTime(date: string, today: string, currentTime: string): (t: string)
    ensures date == today ==> t == Take(currentTime, 5)
    ensures date != today ==> t == "00:00"
    ensures |t| <= 5
  {
    if date == today then Take(currentTime, 5) else "00:00"
  }

  class SportsEventForm {
    var title: string
    var sport: string
    var date: string
    var time: string
    var location: string
    var maxParticipants: string
    var description: string
    var skillLevel: string
    var equipmentProvided: bool
    var registrationDeadline: string
    var contactInfo: string
    var isLoading: bool

    constructor ()
      ensures title == "" && sport == "" && date == "" && time == "" && location == ""
      ensures maxParticipants == "10" && description == "" && skillLevel == "beginner"
      ensures !equipmentProvided && registrationDeadline == "" && contactInfo == "" && !isLoading
    {
      title, sport, date, time, location := "", "", "", "", "";
      maxParticipants, description, skillLevel := "10", "", "beginner";
      equipmentProvided, registrationDeadline, contactInfo, isLoading := false, "", "", false;
    }

    /** `disabled={isLoading || !title || !sport || !date || !time || !location || !description}`. */
    predicate SubmitDisabled()
      reads this
    {
      isLoading || title == "" || sport == "" || date == "" || time == "" || location == "" || description == ""
    }

    /** The equipment button flips `equipmentProvided` and nothing else. */
    method ToggleEquipment()
      modifies this
      ensures equipmentProvided == !old(equipmentProvided)
      ensures title == old(title) && sport == old(sport) && date == old(date) && time == old(time)
      ensures location == old(location) && maxParticipants == old(maxParticipants)
      ensures description == old(description) && skillLevel == old(skillLevel)
      ensures registrationDeadline == old(registrationDeadline) && contactInfo == old(contactInfo)
      ensures isLoading == old(isLoading)
    {
      equipmentProvided := !equipmentProvided;
    }

    /** `handleSubmit`: nothing without a user; otherwise builds the event
        with the creator as its only participant, credits 10 tokens and
        posts the completion notice linking to it. */
    method HandleSubmit(ledger: Tokens.TokenLedger, center: Notifications.NotificationCenter, now: nat)
      returns (event: Option<SportsEvent>)
      requires ledger.auth == center.auth
      modifies this, ledger, ledger.auth, center
      ensures old(ledger.auth.user).None? ==>
                event.None? && ledger.transactions == old(ledger.transactions) &&
                ledger.auth.user == old(ledger.auth.user) && center.notifications == old(center.notifications)
      ensures old(ledger.auth.user).Some? ==>
                var u := old(ledger.auth.user.value);
                event == Some(EventRecord(u, title, sport, date, time, location, maxParticipants,
                                          description, skillLevel, now)) &&
                ledger.Balance() == old(ledger.Balance()) + EventTokens &&
                ledger.auth.user == Some(u.(tokens := u.tokens + EventTokens)) &&
                ledger.transactions[..] == [Submission.Credit(u, EventTokens, EventReason, now)] +
                                           old(ledger.transactions[..]) &&
                center.notifications == [Notifications.Stamp(EventNotice(title, event.value.id), u.id, now)] +
                                        old(center.notifications)
      ensures title == old(title) && sport == old(sport) && date == old(date) && time == old(time)
      ensures location == old(location) && maxParticipants == old(maxParticipants)
      ensures description == old(description) && skillLevel == old(skillLevel)
      ensures equipmentProvided == old(equipmentProvided)
      ensures registrationDeadline == old(registrationDeadline) && contactInfo == old(contactInfo)
      ensures old(ledger.auth.user).None? ==> isLoading == old(isLoading)
      ensures old(ledger.auth.user).Some? ==> !isLoading
      ensures ledger.lastDailyReward == old(ledger.lastDailyReward) && ledger.auth.fixture == old(ledger.auth.fixture)
      ensures old(ledger.Consistent()) ==> ledger.Consistent()
    {
      if ledger.auth.user.None? {
        return None;
      }
      isLoading := true;
      var u := ledger.auth.user.value;
      var e := EventRecord(u, title, sport, date, time, location, maxParticipants, description, skillLevel, now);
      Submission.RewardAndNotify(ledger, center, EventTokens, EventReason, EventNotice(title, e.id), now);
      isLoading := false;
      return Some(e);
    }
  }
}
