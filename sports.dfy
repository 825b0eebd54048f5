/** The sports listing (src/app/sports/page.tsx): the sport filter, the
    full-event rule on the join button, the participant overflow badge, the
    skill-level labels and the join notification. */
module Sports {
  import opened Wrappers
  import opened Records
  import opened Seqs
  import Notifications

  /** The `mockSportsEvents` fixture rows; dates kept as their text. */
  const FixtureSportsEvents: seq<SportsEvent> := [
    SportsEvent("1", "バスケットボール定期戦", "basketball", "2025-06-15T15:00:00", "第一体育館", Some(10),
                Slice(FixtureUsers, 0, 6), "毎週土曜日の定期戦です。初心者歓迎！一緒に汗を流しましょう。",
                "beginner", "upcoming"),
    SportsEvent("2", "テニスサークル練習会", "tennis", "2025-06-12T16:00:00", "テニスコート", Some(8),
                Slice(FixtureUsers, 1, 4), "基礎から応用まで、レベルに合わせて練習します。",
                "intermediate", "upcoming"),
    SportsEvent("3", "サッカー練習試合", "soccer", "2025-06-18T14:00:00", "グラウンド", Some(22),
                Slice(FixtureUsers, 0, 15), "他大学との練習試合です。観戦も歓迎！",
                "advanced", "upcoming")
  ]

  /** What the filter buttons select: 'all', or a `mockSports` display name. */
  const SportButtonValues: seq<string> := ["all", "バスケットボール", "テニス"]

  /** The test an event passes under the selected sport button. */
  function PlaysSport(selected: string): SportsEvent -> bool
  {
    (e: SportsEvent) => e.sport == selected
  }

  /** `filteredEvents`. */
  function FilteredEvents(events: seq<SportsEvent>, selected: string): (r: seq<SportsEvent>)
    ensures selected == "all" ==> r == events
    ensures selected != "all" ==>
              (forall i :: 0 <= i < |r| ==> r[i] in events && r[i].sport == selected) &&
              (forall i :: 0 <= i < |events| && events[i].sport == selected ==> events[i] in r)
  {
    if selected == "all" then events else Filter(events, PlaysSport(selected))
  }

  lemma FilteredEventsInOrder(events: seq<SportsEvent>, selected: string)
    ensures IsSubsequence(FilteredEvents(events, selected), events)
  {
    if selected == "all" {
      FilterKeepsAll(events, (e: SportsEvent) => true);
      FilterIsSubsequence(events, (e: SportsEvent) => true);
    } else {
      FilterIsSubsequence(events, PlaysSport(selected));
    }
  }

  /** The buttons select display names while events store sport ids, so a
      named button shows no fixture event at all. */
  lemma NamedButtonsShowNothing(i: nat)
    requires 0 < i < |SportButtonValues|
    ensures FilteredEvents(FixtureSportsEvents, SportButtonValues[i]) == []
  {
    var sel := SportButtonValues[i];
    forall k | 0 <= k < |FixtureSportsEvents| ensures !PlaysSport(sel)(FixtureSportsEvents[k]) {
    }
    CountWhereZero(FixtureSportsEvents, PlaysSport(sel));
  }

  /** `currentParticipants.length >= maxParticipants`; a limit that did not
      parse (NaN) never compares as reached. */
  predicate IsFull(e: SportsEvent)
  {
    e.maxParticipants.Some? && |e.currentParticipants| >= e.maxParticipants.value
  }

  function JoinCaption(e: SportsEvent): (caption: string)
    ensures caption == "満員" <==> IsFull(e)
  {
    if IsFull(e) then "満員" else "参加する"
  }

  /** No fixture event is full. */
  lemma FixtureEventsOpen(k: nat)
    requires k < |FixtureSportsEvents|
    ensures !IsFull(FixtureSportsEvents[k])
  {
  }

  /** The first three avatars are drawn, then `+n` for the rest. */
  function ShownParticipants(e: SportsEvent): (r: seq<User>)
    ensures |r| == Min(3, |e.currentParticipants|) && r <= e.currentParticipants
  {
    Take(e.currentParticipants, 3)
  }

  function OverflowBadge(e: SportsEvent): (r: Option<nat>)
    ensures r.Some? <==> |e.currentParticipants| > 3
    ensures r.Some? ==> r.value > 0 && |ShownParticipants(e)| + r.value == |e.currentParticipants|
    ensures r.Some? ==> r.value == |e.currentParticipants| - 3 && |ShownParticipants(e)| == 3
  {
    if |e.currentParticipants| > 3 then Some(|e.currentParticipants| - 3) else None
  }

  /** `getSkillLevelLabel`. */
  function SkillLevelLabel(level: string): (caption: string)
    ensures level !in {"beginner", "intermediate", "advanced"} ==> caption == level
    ensures level in {"beginner", "intermediate", "advanced"} ==> caption !in {"beginner", "intermediate", "advanced"}
  {
    match level
    case "beginner" => "初心者"
    case "intermediate" => "中級者"
    case "advanced" => "上級者"
    case _ => level
  }

  lemma SkillLevelLabelsDistinct(a: string, b: string)
    requires a in {"beginner", "intermediate", "advanced"} && b in {"beginner", "intermediate", "advanced"} && a != b
    ensures SkillLevelLabel(a) != SkillLevelLabel(b)
  {
  }

  /** The notice `handleParticipate` posts. */
  function ParticipateNotice(eventId: string, eventTitle: string): Notifications.Draft
  {
    Notifications.Draft(Success, "イベント参加", eventTitle + "への参加が確定しました", false, Some("/sports/" + eventId))
  }

  /** It is the `createNotification.eventParticipation` notice. */
  lemma ParticipateNoticeIsBuilder(eventId: string, eventTitle: string)
    ensures ParticipateNotice(eventId, eventTitle) ==
            Notifications.Build(Notifications.EventParticipationNotice(eventTitle, eventId))
  {
  }

  /** `handleParticipate`: posts the join notice (nothing else changes). */
  method HandleParticipate(center: Notifications.NotificationCenter, eventId: string, eventTitle: string, now: nat)
    modifies center
    ensures center.auth.user.None? ==> center.notifications == old(center.notifications)
    ensures center.auth.user.Some? ==>
              center.notifications == [Notifications.Stamp(ParticipateNotice(eventId, eventTitle),
                                                           center.auth.user.value.id, now)] + old(center.notifications)
  {
    center.AddNotification(ParticipateNotice(eventId, eventTitle), now);
  }
}
