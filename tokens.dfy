/** The token ledger (src/context/TokenContext.tsx): a transaction log kept
    newest first and the user's balance, which lives in the session record
    and is updated through `updateProfile`. */
module Tokens {
  import opened Wrappers
  import opened Records
  import Text
  import Auth

  /** A transaction's effect on the balance. */
  function Signed(t: TokenTransaction): int
  {
    if t.kind == Earn then t.amount else -t.amount
  }

  /** Earned minus spent over a log. */
  function Net(ts: seq<TokenTransaction>): int
    decreases |ts|
  {
    if ts == [] then 0 else Signed(ts[0]) + Net(ts[1..])
  }

  lemma {:induction false} NetAppend(a: seq<TokenTransaction>, b: seq<TokenTransaction>)
    ensures Net(a + b) == Net(a) + Net(b)
    decreases |a|
  {
    if a == [] {
      assert a + b == b;
    } else {
      assert (a + b)[1..] == a[1..] + b;
      NetAppend(a[1..], b);
    }
  }

  /** Removing one entry from anywhere in the log removes its effect. */
  lemma {:induction false} NetRemove(ts: seq<TokenTransaction>, j: nat)
    requires j < |ts|
    ensures Net(ts) == Signed(ts[j]) + Net(ts[..j] + ts[j + 1..])
    decreases j
  {
    if j == 0 {
      assert ts[..0] + ts[1..] == ts[1..];
    } else {
      var tail := ts[1..];
      NetRemove(tail, j - 1);
      var rest := tail[..j - 1] + tail[j..];
      assert tail[j - 1] == ts[j];
      assert ts[..j] + ts[j + 1..] == [ts[0]] + rest;
      assert ([ts[0]] + rest)[1..] == rest;
    }
  }

  lemma MultisetRemove(b: seq<TokenTransaction>, j: nat)
    requires j < |b|
    ensures multiset(b[..j] + b[j + 1..]) == multiset(b) - multiset{b[j]}
  {
    assert b == b[..j] + [b[j]] + b[j + 1..];
  }

  /** The net amount does not depend on the order of the log, so sorting the
      history keeps the balance consistent with it. */
  lemma {:induction false} NetPermutation(a: seq<TokenTransaction>, b: seq<TokenTransaction>)
    requires multiset(a) == multiset(b)
    ensures Net(a) == Net(b)
    decreases |a|
  {
    if a == [] {
      assert |b| == |multiset(b)| == 0;
    } else {
      assert a[0] in multiset(b);
      var j :| 0 <= j < |b| && b[j] == a[0];
      assert a == [a[0]] + a[1..];
      assert multiset(a[1..]) == multiset(a) - multiset{a[0]};
      MultisetRemove(b, j);
      NetPermutation(a[1..], b[..j] + b[j + 1..]);
      NetRemove(b, j);
    }
  }

  /** The order `getTransactionHistory` promises: most recent first. */
  predicate NewestFirst(ts: seq<TokenTransaction>)
  {
    forall i, j :: 0 <= i < j < |ts| ==> ts[i].createdAt >= ts[j].createdAt
  }

  /** `[t, ...a]` as a new array. */
  method Prepend(t: TokenTransaction, a: array<TokenTransaction>) returns (b: array<TokenTransaction>)
    ensures fresh(b)
    ensures b[..] == [t] + a[..]
  {
    b := new TokenTransaction[a.Length + 1](_ => t);
    var i := 0;
    while i < a.Length
      invariant 0 <= i <= a.Length
      invariant b[0] == t
      invariant forall k :: 0 <= k < i ==> b[k + 1] == a[k]
    {
      b[i + 1] := a[i];
      i := i + 1;
    }
  }

  /** The first `n` entries are in order, newest first. */
  ghost predicate OrderedPrefix(s: seq<TokenTransaction>, n: int)
  {
    forall k, l :: 0 <= k < l < n && l < |s| ==> s[k].createdAt >= s[l].createdAt
  }

  /** `s` with the entries at `j - 1` and `j` exchanged. */
  ghost function Swapped(s: seq<TokenTransaction>, j: nat): (r: seq<TokenTransaction>)
    requires 0 < j < |s|
    ensures |r| == |s| && multiset(r) == multiset(s)
  {
    s[j - 1 := s[j]][j := s[j - 1]]
  }

  /** Mid-insertion: the first `i + 1` entries are in order once the entry
      at `j` is set aside, and that entry is newer than all after it. */
  ghost predicate Sifting(s: seq<TokenTransaction>, i: nat, j: nat)
  {
    j <= i < |s| &&
    (forall k, l :: 0 <= k < l <= i && k != j && l != j ==> s[k].createdAt >= s[l].createdAt) &&
    (forall l :: j < l <= i ==> s[j].createdAt > s[l].createdAt)
  }

  lemma SiftStart(s: seq<TokenTransaction>, i: nat)
    requires i < |s| && OrderedPrefix(s, i)
    ensures Sifting(s, i, i)
  {
  }

  lemma SiftStep(s: seq<TokenTransaction>, i: nat, j: nat)
    requires Sifting(s, i, j) && 0 < j && s[j - 1].createdAt < s[j].createdAt
    ensures Sifting(Swapped(s, j), i, j - 1)
  {
    var r := Swapped(s, j);
    forall k, l | 0 <= k < l <= i && k != j - 1 && l != j - 1
      ensures r[k].createdAt >= r[l].createdAt
    {
      if l == j {
        assert r[j] == s[j - 1];
        if k < j - 1 {
          assert s[k].createdAt >= s[j - 1].createdAt;
        }
      } else if k == j {
        assert r[j] == s[j - 1];
        assert s[j - 1].createdAt >= s[l].createdAt;
      }
    }
  }

  lemma SiftDone(s: seq<TokenTransaction>, i: nat, j: nat)
    requires Sifting(s, i, j) && (j == 0 || s[j - 1].createdAt >= s[j].createdAt)
    ensures OrderedPrefix(s, i + 1)
  {
    forall k, l | 0 <= k < l < i + 1 && l < |s|
      ensures s[k].createdAt >= s[l].createdAt
    {
      if l == j && k < j - 1 {
        assert s[k].createdAt >= s[j - 1].createdAt;
      }
    }
  }

  /** One insertion step: moves `a[i]` left past every strictly older entry. */
  method InsertNewest(a: array<TokenTransaction>, i: nat)
    requires i < a.Length && OrderedPrefix(a[..], i)
    modifies a
    ensures OrderedPrefix(a[..], i + 1)
    ensures multiset(a[..]) == multiset(old(a[..]))
  {
    var j: nat := i;
    SiftStart(a[..], i);
    while j > 0 && a[j - 1].createdAt < a[j].createdAt
      invariant Sifting(a[..], i, j)
      invariant multiset(a[..]) == multiset(old(a[..]))
    {
      ghost var s := a[..];
      SiftStep(s, i, j);
      a[j - 1], a[j] := a[j], a[j - 1];
      assert a[..] == Swapped(s, j);
      j := j - 1;
    }
    SiftDone(a[..], i, j);
  }

  /** `transactions.sort((a, b) => b.createdAt - a.createdAt)`: sorts the log
      in place, newest first. */
  method SortNewestFirst(a: array<TokenTransaction>)
    modifies a
    ensures NewestFirst(a[..])
    ensures multiset(a[..]) == multiset(old(a[..]))
  {
    var i := 0;
    while i < a.Length
      invariant 0 <= i <= a.Length
      invariant OrderedPrefix(a[..], i)
      invariant multiset(a[..]) == multiset(old(a[..]))
    {
      InsertNewest(a, i);
      i := i + 1;
    }
  }

  /** The `tokenRewards` helpers: which amount and reason each passes to `addTokens`. */
  datatype RewardKind = ForPost | ForComment | ForReview | ForEventParticipation | ForQuestionAnswer | ForBestAnswer

  datatype Award = Award(amount: int, reason: string, relatedId: string)

  function RewardAward(kind: RewardKind, relatedId: string): (w: Award)
    ensures w.amount > 0 && w.relatedId == relatedId
    ensures kind == ForBestAnswer ==> w.amount == 10 * PostCreation
    ensures kind == ForPost ==> w.amount == PostCreation && w.reason == "投稿作成"
    ensures kind == ForComment ==> w.amount == Comment && w.reason == "コメント投稿"
    ensures kind == ForReview ==> w.amount == ReviewReward && w.reason == "レビュー投稿"
    ensures kind == ForEventParticipation ==> w.amount == EventParticipation && w.reason == "イベント参加"
    ensures kind == ForQuestionAnswer ==> w.amount == QuestionAnswer && w.reason == "質問回答"
    ensures kind == ForBestAnswer ==> w.amount == BestAnswer && w.reason == "ベストアンサー選出"
  {
    match kind
    case ForPost => Award(PostCreation, "投稿作成", relatedId)
    case ForComment => Award(Comment, "コメント投稿", relatedId)
    case ForReview => Award(ReviewReward, "レビュー投稿", relatedId)
    case ForEventParticipation => Award(EventParticipation, "イベント参加", relatedId)
    case ForQuestionAnswer => Award(QuestionAnswer, "質問回答", relatedId)
    case ForBestAnswer => Award(BestAnswer, "ベストアンサー選出", relatedId)
  }

  /** Different helpers pay under different reasons, so the log tells them apart. */
  lemma RewardReasonsDistinct(k1: RewardKind, k2: RewardKind, id: string)
    requires k1 != k2
    ensures RewardAward(k1, id).reason != RewardAward(k2, id).reason
  {
  }

  /** A best answer pays more than any other reward. */
  lemma BestAnswerIsLargest(kind: RewardKind, id: string)
    ensures RewardAward(kind, id).amount <= RewardAward(ForBestAnswer, id).amount
  {
  }

  class TokenLedger {
    const auth: Auth.AuthSession
    /** `transactions`, newest first. */
    var transactions: array<TokenTransaction>
    /** `last_daily_reward_<userId>` entries: the day each user was last paid the bonus. */
    var lastDailyReward: map<string, string>
    /** The balance the user had before any logged transaction. */
    ghost var base: int

    /** The user's balance is the starting balance plus the net of the log. */
    ghost predicate Consistent()
      reads this, auth, transactions
    {
      auth.user.Some? ==> auth.user.value.tokens == base + Net(transactions[..])
    }

    /** `balance`: `user?.tokens || 0`. */
    function Balance(): (b: int)
      reads this, auth
      ensures auth.user.None? ==> b == 0
      ensures auth.user.Some? ==> b == auth.user.value.tokens
    {
      if auth.user.Some? then auth.user.value.tokens else 0
    }

    /** Starts from the saved log when a user is signed in; the log is empty
        with no user, no stored entry, or an entry that does not parse. */
    constructor (auth: Auth.AuthSession, saved: Stored<seq<TokenTransaction>>, dailyRewards: map<string, string>)
      ensures this.auth == auth && fresh(transactions)
      ensures transactions[..] == (if auth.user.Some? && saved.Present? then saved.value else [])
      ensures lastDailyReward == dailyRewards
      ensures Consistent()
    {
      var log := if auth.user.Some? && saved.Present? then saved.value else [];
      this.auth := auth;
      transactions := new TokenTransaction[|log|](i requires 0 <= i < |log| => log[i]);
      lastDailyReward := dailyRewards;
      base := if auth.user.Some? then auth.user.value.tokens - Net(log) else 0;
    }

    /** `addTokens`: ignored with no user or a non-positive amount; otherwise
        logs an `earn` entry in front and raises the balance by `amount`. */
    method AddTokens(amount: int, reason: string, relatedId: Option<string>, now: nat)
      modifies this, auth
      ensures base == old(base) && lastDailyReward == old(lastDailyReward)
      ensures auth.fixture == old(auth.fixture)
      ensures old(auth.user).None? || amount <= 0 ==>
                transactions == old(transactions) && auth.user == old(auth.user)
      ensures old(auth.user).Some? && amount > 0 ==>
                fresh(transactions) &&
                transactions[..] == [TokenTransaction(Text.NatToString(now), old(auth.user).value.id, amount,
                                                      Earn, reason, relatedId, now)] + old(transactions[..]) &&
                auth.user == Some(old(auth.user).value.(tokens := old(auth.user).value.tokens + amount))
      ensures Balance() >= old(Balance())
      ensures old(Consistent()) ==> Consistent()
    {
      if auth.user.None? || amount <= 0 {
        return;
      }
      var u := auth.user.value;
      var t := TokenTransaction(Text.NatToString(now), u.id, amount, Earn, reason, relatedId, now);
      ghost var before := transactions[..];
      transactions := Prepend(t, transactions);
      auth.UpdateProfile(Auth.TokensPatch(u.tokens + amount));
      Auth.MergeTokensOnly(u, u.tokens + amount);
      assert transactions[..] == [t] + before;
      assert Net([t] + before) == amount + Net(before) by {
        assert ([t] + before)[1..] == before;
      }
    }

    /** `spendTokens`: refused (false) with no user, a non-positive amount or
        an amount above the balance; otherwise logs a `spend` entry in front,
        lowers the balance by `amount` and answers true. */
    method SpendTokens(amount: int, reason: string, relatedId: Option<string>, now: nat) returns (ok: bool)
      modifies this, auth
      ensures base == old(base) && lastDailyReward == old(lastDailyReward)
      ensures auth.fixture == old(auth.fixture)
      ensures ok <==> old(auth.user).Some? && amount > 0 && old(auth.user).value.tokens >= amount
      ensures !ok ==> transactions == old(transactions) && auth.user == old(auth.user)
      ensures ok ==>
                fresh(transactions) &&
                transactions[..] == [TokenTransaction(Text.NatToString(now), old(auth.user).value.id, amount,
                                                      Spend, reason, relatedId, now)] + old(transactions[..]) &&
                auth.user == Some(old(auth.user).value.(tokens := old(auth.user).value.tokens - amount))
      ensures ok ==> 0 <= Balance() < old(Balance())
      ensures old(Consistent()) ==> Consistent()
    {
      if auth.user.None? || amount <= 0 || auth.user.value.tokens < amount {
        return false;
      }
      var u := auth.user.value;
      var t := TokenTransaction(Text.NatToString(now), u.id, amount, Spend, reason, relatedId, now);
      ghost var before := transactions[..];
      transactions := Prepend(t, transactions);
      auth.UpdateProfile(Auth.TokensPatch(u.tokens - amount));
      Auth.MergeTokensOnly(u, u.tokens - amount);
      assert transactions[..] == [t] + before;
      assert Net([t] + before) == -amount + Net(before) by {
        assert ([t] + before)[1..] == before;
      }
      return true;
    }

    /** `getTransactionHistory`: sorts the log itself, newest first, and
        returns it (the same array, not a copy). */
    method GetTransactionHistory() returns (h: array<TokenTransaction>)
      modifies transactions
      ensures h == transactions
      ensures NewestFirst(h[..])
      ensures multiset(h[..]) == multiset(old(transactions[..]))
      ensures old(Consistent()) ==> Consistent()
    {
      ghost var before := transactions[..];
      SortNewestFirst(transactions);
      NetPermutation(before, transactions[..]);
      h := transactions;
    }

    /** The daily bonus: when the user was not already paid today, pays
        `DAILY_LOGIN` and records today for the user. */
    method DailyBonus(today: string, now: nat)
      modifies this, auth
      ensures base == old(base) && auth.fixture == old(auth.fixture)
      ensures old(auth.user).None? ==>
                transactions == old(transactions) && auth.user == old(auth.user) &&
                lastDailyReward == old(lastDailyReward)
      ensures old(auth.user).Some? ==>
                var id := old(auth.user).value.id;
                lastDailyReward == old(lastDailyReward)[id := today] &&
                (id in old(lastDailyReward) && old(lastDailyReward)[id] == today ==>
                   transactions == old(transactions) && auth.user == old(auth.user)) &&
                (!(id in old(lastDailyReward) && old(lastDailyReward)[id] == today) ==>
                   transactions[..] == [TokenTransaction(Text.NatToString(now), id, DailyLogin, Earn,
                                                         "デイリーログインボーナス", None, now)] +
                                       old(transactions[..]) &&
                   auth.user == Some(old(auth.user).value.(tokens := old(auth.user).value.tokens + DailyLogin)) &&
                   Balance() == old(Balance()) + DailyLogin)
      ensures old(Consistent()) ==> Consistent()
    {
      if auth.user.None? {
        return;
      }
      var id := auth.user.value.id;
      if id !in lastDailyReward || lastDailyReward[id] != today {
        AddTokens(DailyLogin, "デイリーログインボーナス", None, now);
        lastDailyReward := lastDailyReward[id := today];
      } else {
        assert lastDailyReward == lastDailyReward[id := today];
      }
    }

    /** Calling one of the `tokenRewards` helpers with this ledger's `addTokens`. */
    method Reward(kind: RewardKind, relatedId: string, now: nat)
      modifies this, auth
      ensures base == old(base) && lastDailyReward == old(lastDailyReward)
      ensures auth.fixture == old(auth.fixture)
      ensures old(auth.user).Some? ==>
                var w := RewardAward(kind, relatedId);
                transactions[..] == [TokenTransaction(Text.NatToString(now), old(auth.user).value.id, w.amount, Earn,
                                                      w.reason, Some(relatedId), now)] + old(transactions[..]) &&
                auth.user == Some(old(auth.user).value.(tokens := old(auth.user).value.tokens + w.amount)) &&
                Balance() == old(Balance()) + w.amount
      ensures old(auth.user).None? ==> transactions == old(transactions) && auth.user == old(auth.user)
      ensures old(Consistent()) ==> Consistent()
    {
      var w := RewardAward(kind, relatedId);
      AddTokens(w.amount, w.reason, Some(w.relatedId), now);
    }
  }
}
