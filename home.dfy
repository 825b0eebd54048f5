/** The home dashboard (src/app/page.tsx): the greeting by hour, the lists
    it shortens and the counts on its section cards. */
module Home {
  import opened Wrappers
  import opened Records
  import opened Seqs
  import Sports

  /** `getGreeting` for the hour the page was drawn. */
  function Greeting(hour: int): (g: string)
    ensures hour < 12 ==> g == "おはようございます"
    ensures 12 <= hour < 18 ==> g == "こんにちは"
    ensures hour >= 18 ==> g == "こんばんは"
  {
    if hour < 12 then "おはようございます" else if hour < 18 then "こんにちは" else "こんばんは"
  }

  /** Each greeting covers one stretch of the day. */
  lemma GreetingPeriods(h1: int, h2: int)
    requires 0 <= h1 <= h2 <= 23 && Greeting(h1) == Greeting(h2)
    ensures forall h :: h1 <= h <= h2 ==> Greeting(h) == Greeting(h1)
  {
  }

  /** The welcome line, drawn only for a signed-in user. */
  function Welcome(user: Option<User>, hour: int): (w: Option<string>)
    ensures w.Some? <==> user.Some?
    ensures w.Some? ==> Greeting(hour) <= w.value
    ensures w.Some? ==> w.value == Greeting(hour) + "、" + user.value.name + "さん！"
  {
    if user.None? then None else Some(Greeting(hour) + "、" + user.value.name + "さん！")
  }

  /** The activity feed shows the first eight activities. */
  function FeedSlice<T>(activities: seq<T>): (r: seq<T>)
    ensures |r| == Min(8, |activities|) && r <= activities
  {
    Take(activities, 8)
  }

  /** The upcoming-events card lists the first three. */
  function UpcomingSlice<T>(events: seq<T>): (r: seq<T>)
    ensures |r| == Min(3, |events|) && r <= events
  {
    Take(events, 3)
  }

  predicate IsUpcoming(e: SportsEvent)
  {
    e.status == "upcoming"
  }

  /** The "new events" count on the sports card. */
  function NewSportsEvents(events: seq<SportsEvent>): (n: nat)
    ensures n <= |events|
  {
    CountWhere(events, IsUpcoming)
  }

  /** The count is never more than the badge beside it, and is zero exactly
      when no event is upcoming. */
  lemma NewSportsEventsZero(events: seq<SportsEvent>)
    ensures NewSportsEvents(events) == 0 <==> forall i :: 0 <= i < |events| ==> !IsUpcoming(events[i])
  {
    CountWhereZero(events, IsUpcoming);
  }

  /** Every fixture event is upcoming. */
  lemma FixtureAllUpcoming()
    ensures NewSportsEvents(Sports.FixtureSportsEvents) == |Sports.FixtureSportsEvents|
  {
    var f := Sports.FixtureSportsEvents;
    CountWhereCons(f, IsUpcoming);
    CountWhereCons(f[1..], IsUpcoming);
    CountWhereCons(f[1..][1..], IsUpcoming);
    assert f[1..][1..][1..] == [];
  }
}
