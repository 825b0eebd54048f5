/** The token ranking page (src/app/ranking/page.tsx): the period selector,
    the podium of the first three, the rest of the list and the signed-in
    user's own row. */
module Ranking {
  import opened Wrappers
  import opened Records
  import opened Seqs

  datatype Period = Total | Monthly | Weekly

  const DefaultPeriod: Period := Total

  /** One row of the ranking list. */
  datatype TokenRanking = TokenRanking(
    user: User,
    totalTokens: int,
    monthlyTokens: int,
    weeklyTokens: int,
    rank: int,
    achievements: seq<string>)

  /** `getTokensForPeriod`. */
  function TokensForPeriod(r: TokenRanking, p: Period): (t: int)
    ensures p == Monthly ==> t == r.monthlyTokens
    ensures p == Weekly ==> t == r.weeklyTokens
    ensures p == Total ==> t == r.totalTokens
  {
    match p
    case Monthly => r.monthlyTokens
    case Weekly => r.weeklyTokens
    case Total => r.totalTokens
  }

  /** Before any choice the total is shown. */
  lemma DefaultShowsTotal(r: TokenRanking)
    ensures TokensForPeriod(r, DefaultPeriod) == r.totalTokens
  {
  }

  /** `slice(0, 3)`: the podium. */
  function Podium(rs: seq<TokenRanking>): (r: seq<TokenRanking>)
    ensures |r| <= 3 && r <= rs
  {
    Take(rs, 3)
  }

  /** `slice(3)`: everyone below the podium. */
  function BelowPodium(rs: seq<TokenRanking>): (r: seq<TokenRanking>)
    ensures |r| == if |rs| <= 3 then 0 else |rs| - 3
  {
    Drop(rs, 3)
  }

  /** Every row appears once, on the podium or below it, in list order. */
  lemma PodiumAndRestPartition(rs: seq<TokenRanking>)
    ensures Podium(rs) + BelowPodium(rs) == rs
    ensures |rs| >= 3 ==> |Podium(rs)| == 3
  {
  }

  /** The achievements shown: three on the podium, two below it. */
  function ShownAchievements(r: TokenRanking, onPodium: bool): (a: seq<string>)
    ensures a <= r.achievements && |a| == Min(if onPodium then 3 else 2, |r.achievements|)
  {
    Take(r.achievements, if onPodium then 3 else 2)
  }

  datatype RankIcon = Trophy | Medal | AwardIcon | Numbered(n: int)

  /** `getRankIcon`. */
  function RankIconOf(rank: int): (icon: RankIcon)
    ensures icon.Numbered? <==> rank !in {1, 2, 3}
    ensures icon.Numbered? ==> icon.n == rank
  {
    match rank
    case 1 => Trophy
    case 2 => Medal
    case 3 => AwardIcon
    case _ => Numbered(rank)
  }

  lemma PodiumIconsDistinct(a: int, b: int)
    requires a in {1, 2, 3} && b in {1, 2, 3} && a != b
    ensures RankIconOf(a) != RankIconOf(b)
  {
  }

  /** `currentUserRanking`: the first row for the signed-in user's id. */
  function CurrentUserRanking(rs: seq<TokenRanking>, user: Option<User>): (r: Option<TokenRanking>)
    ensures user.None? ==> r.None?
    ensures user.Some? ==> (r.None? <==> forall i :: 0 <= i < |rs| ==> rs[i].user.id != user.value.id)
    ensures r.Some? ==> exists i :: 0 <= i < |rs| && rs[i] == r.value && r.value.user.id == user.value.id &&
                                   forall k :: 0 <= k < i ==> rs[k].user.id != user.value.id
  {
    if user.None? then None
    else Find(rs, (x: TokenRanking) => x.user.id == user.value.id)
  }

  /** A user listed at the top is found there. */
  lemma LeaderFindsOwnRow(rs: seq<TokenRanking>)
    requires rs != []
    ensures CurrentUserRanking(rs, Some(rs[0].user)) == Some(rs[0])
  {
  }
}
