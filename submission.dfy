/** The common tail of the create pages' submit handlers: credit the
    reward through `addTokens`, then post a success notification through
    `addNotification`, both for the logged-in user. */
module Submission {
  import opened Wrappers
  import opened Records
  import Text
  import Tokens
  import Notifications

  /** The ledger entry `addTokens(amount, reason)` writes. */
  function Credit(u: User, amount: int, reason: string, now: nat): (t: TokenTransaction)
    ensures t.kind == Earn && t.userId == u.id && t.amount == amount && t.reason == reason
    ensures t.relatedId.None? && t.createdAt == now
  {
    TokenTransaction(Text.NatToString(now), u.id, amount, Earn, reason, None, now)
  }

  method RewardAndNotify(ledger: Tokens.TokenLedger, center: Notifications.NotificationCenter,
                         amount: int, reason: string, note: Notifications.Draft, now: nat)
    requires ledger.auth == center.auth && ledger.auth.user.Some? && amount > 0
    modifies ledger, ledger.auth, center
    ensures var u := old(ledger.auth.user.value);
            ledger.auth.user == Some(u.(tokens := u.tokens + amount)) &&
            ledger.transactions[..] == [Credit(u, amount, reason, now)] + old(ledger.transactions[..]) &&
            center.notifications == [Notifications.Stamp(note, u.id, now)] + old(center.notifications)
    ensures ledger.Balance() == old(ledger.Balance()) + amount
    ensures ledger.lastDailyReward == old(ledger.lastDailyReward) && ledger.auth.fixture == old(ledger.auth.fixture)
    ensures old(ledger.Consistent()) ==> ledger.Consistent()
  {
    ledger.AddTokens(amount, reason, None, now);
    center.AddNotification(note, now);
  }
}
