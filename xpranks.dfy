/**
 * The rank and XP policy (`XPSystem` in xp_system.py): ranks from XP thresholds, the spam
 * filter for chat messages, the one-XP-per-message grant with promotion, profiles, and the
 * administrative adjustments, all on top of the XP ledger of database.py.
 */
module XpRanks {
  import opened Wrappers
  import opened Text
  import opened XpStore

  /** The XP each ordinary rank starts at, ascending; `RankNames[i]` starts at `Thresholds[i]`. */
  const Thresholds: seq<int> := [0, 50, 150, 300, 600, 1000]
  const RankNames: seq<string> := ["Новачок", "Учасник", "Активіст", "Авторитет", "Ветеран", "Легенда"]

  /** Ranks only an administrator can assign; automatic recalculation never replaces them. */
  const SpecialRanks: seq<string> := ["Ресейлер", "Адміністратор"]

  /** The rank profiles show for administrators. */
  const AdminRank := "Адміністратор"

  // ---------------------------------------------------------------------------------------
  // Ranks

  /**
   * Scans thresholds `k - 1` down to `0` and stops at the first one `xp` reaches: the index of
   * the largest threshold among the first `k` that is at most `xp`, or -1 when none is.
   */
  function ReachedAmongFirst(xp: int, k: nat): (i: int)
    requires k <= |Thresholds|
    ensures -1 <= i < k
    ensures i >= 0 ==> Thresholds[i] <= xp
    ensures forall j :: i < j < k ==> xp < Thresholds[j]
  {
    if k == 0 then -1
    else if xp >= Thresholds[k - 1] then k - 1
    else ReachedAmongFirst(xp, k - 1)
  }

  /**
   * The rank of a user with `xp` points: the name of the largest threshold `xp` reaches,
   * and the base rank below every threshold. It is never a special rank.
   */
  function CalculateRankFromXp(xp: int): (r: string)
    ensures xp < 0 ==> r == RankNames[0]
    ensures xp >= 0 ==> exists i :: 0 <= i < |Thresholds| && Thresholds[i] <= xp && r == RankNames[i]
                                    && forall j :: i < j < |Thresholds| ==> xp < Thresholds[j]
    ensures r !in SpecialRanks
  {
    var i := ReachedAmongFirst(xp, |Thresholds|);
    if i < 0 then "Новачок" else RankNames[i]
  }

  /** The position of an ordinary rank in the threshold table, -1 for any other name. */
  function RankOrder(name: string): (i: int)
    ensures -1 <= i < |RankNames|
    ensures i >= 0 ==> RankNames[i] == name
    ensures i == -1 <==> name !in RankNames
  {
    if name == "Новачок" then 0
    else if name == "Учасник" then 1
    else if name == "Активіст" then 2
    else if name == "Авторитет" then 3
    else if name == "Ветеран" then 4
    else if name == "Легенда" then 5
    else -1
  }

  /** The rank of `xp` sits at the index of the largest threshold `xp` reaches. */
  lemma RankOrderOfXp(xp: int, i: int)
    requires 0 <= i < |Thresholds| && Thresholds[i] <= xp
    requires forall j :: i < j < |Thresholds| ==> xp < Thresholds[j]
    ensures RankOrder(CalculateRankFromXp(xp)) == i
  {
    var k :| 0 <= k < |Thresholds| && Thresholds[k] <= xp && CalculateRankFromXp(xp) == RankNames[k]
             && forall j :: k < j < |Thresholds| ==> xp < Thresholds[j];
    assert k == i;
    assert RankOrder(RankNames[i]) == i;
  }

  /** More XP never means a lower rank. */
  lemma CalculateRankMonotone(a: int, b: int)
    requires a <= b
    ensures RankOrder(CalculateRankFromXp(a)) <= RankOrder(CalculateRankFromXp(b))
  {
    if a < 0 {
      assert RankOrder(CalculateRankFromXp(a)) == 0;
      if b >= 0 {
        var j :| 0 <= j < |Thresholds| && Thresholds[j] <= b && CalculateRankFromXp(b) == RankNames[j]
                 && forall l :: j < l < |Thresholds| ==> b < Thresholds[l];
        RankOrderOfXp(b, j);
      }
    } else {
      var i :| 0 <= i < |Thresholds| && Thresholds[i] <= a && CalculateRankFromXp(a) == RankNames[i]
               && forall l :: i < l < |Thresholds| ==> a < Thresholds[l];
      var j :| 0 <= j < |Thresholds| && Thresholds[j] <= b && CalculateRankFromXp(b) == RankNames[j]
               && forall l :: j < l < |Thresholds| ==> b < Thresholds[l];
      RankOrderOfXp(a, i);
      RankOrderOfXp(b, j);
    }
  }

  /** The next rank up: its name, the XP still missing and the threshold itself. */
  datatype NextRank = NextRank(rank: string, xpNeeded: int, threshold: int)

  /** Scans thresholds from `k` upward and stops at the first one above `xp`. */
  function NextRankFrom(xp: int, k: nat): (r: Option<NextRank>)
    requires k <= |Thresholds|
    requires forall j :: 0 <= j < k ==> Thresholds[j] <= xp
    ensures r.None? <==> xp >= Thresholds[|Thresholds| - 1]
    ensures r.Some? ==> exists i :: k <= i < |Thresholds| && r.value == NextRank(RankNames[i], Thresholds[i] - xp, Thresholds[i])
                                    && xp < Thresholds[i] && forall j :: 0 <= j < i ==> Thresholds[j] <= xp
    decreases |Thresholds| - k
  {
    if k == |Thresholds| then None
    else if xp < Thresholds[k] then Some(NextRank(RankNames[k], Thresholds[k] - xp, Thresholds[k]))
    else NextRankFrom(xp, k + 1)
  }

  /**
   * The first threshold strictly above `xp`, with the XP still needed to reach it; None
   * once the top threshold is reached.
   */
  function NextRankAfter(xp: int): (r: Option<NextRank>)
    ensures r.None? <==> xp >= 1000
    ensures r.Some? ==> r.value.xpNeeded > 0 && xp + r.value.xpNeeded == r.value.threshold
    ensures r.Some? ==> exists i :: 0 <= i < |Thresholds| && r.value.threshold == Thresholds[i] && r.value.rank == RankNames[i]
                                    && xp < Thresholds[i] && forall j :: 0 <= j < i ==> Thresholds[j] <= xp
  {
    NextRankFrom(xp, 0)
  }

  /** For a user with some XP, the next rank is the one right above the current rank. */
  lemma NextRankIsOneUp(xp: int)
    requires 0 <= xp < 1000
    ensures NextRankAfter(xp).Some?
    ensures RankOrder(NextRankAfter(xp).value.rank) == RankOrder(CalculateRankFromXp(xp)) + 1
    ensures CalculateRankFromXp(NextRankAfter(xp).value.threshold) == NextRankAfter(xp).value.rank
  {
    var nr := NextRankAfter(xp).value;
    var i :| 0 <= i < |Thresholds| && nr.threshold == Thresholds[i] && nr.rank == RankNames[i]
             && xp < Thresholds[i] && forall j :: 0 <= j < i ==> Thresholds[j] <= xp;
    assert i > 0;
    ThresholdsAscend();
    RankOrderOfXp(xp, i - 1);
    RankOrderOfXp(nr.threshold, i);
  }

  /** The thresholds strictly increase. */
  lemma ThresholdsAscend()
    ensures forall a, b :: 0 <= a < b < |Thresholds| ==> Thresholds[a] < Thresholds[b]
  {
  }

  /** The rank names offered to administrators: the ordinary ranks in order, then the special ones. */
  function GetAvailableRanks(): (r: seq<string>)
    ensures |r| == |RankNames| + |SpecialRanks|
    ensures r[..|RankNames|] == RankNames && r[|RankNames|..] == SpecialRanks
    ensures forall i, j :: 0 <= i < j < |r| ==> r[i] != r[j]
    ensures forall xp :: CalculateRankFromXp(xp) in r[..|RankNames|]
  {
    RankNames + SpecialRanks
  }

  /** The badges of the available ranks, in the order `GetAvailableRanks` lists them. */
  const RankBadges: seq<string> := ["🌱", "👤", "⭐", "👑", "🏆", "💎", "💰", "🔥"]

  /** The badge shown beside a rank; unknown names get a question mark. */
  function GetRankEmoji(rank: string): (e: string)
    ensures e == "❓" <==> rank !in GetAvailableRanks()
    ensures forall i :: 0 <= i < |GetAvailableRanks()| && GetAvailableRanks()[i] == rank ==> e == RankBadges[i]
  {
    assert GetAvailableRanks() == ["Новачок", "Учасник", "Активіст", "Авторитет", "Ветеран", "Легенда", "Ресейлер", "Адміністратор"];
    if rank == "Новачок" then "🌱"
    else if rank == "Учасник" then "👤"
    else if rank == "Активіст" then "⭐"
    else if rank == "Авторитет" then "👑"
    else if rank == "Ветеран" then "🏆"
    else if rank == "Легенда" then "💎"
    else if rank == "Ресейлер" then "💰"
    else if rank == "Адміністратор" then "🔥"
    else "❓"
  }

  // ---------------------------------------------------------------------------------------
  // Spam filter

  /** The five regular expressions a normalised message is matched against. */
  datatype SpamPattern =
    | SingleSign      // ^[+\-\.]$
    | ShortReply      // ^(ок|ok|да|не|нет)$
    | SignsOnly       // ^[+\-]*$
    | BlankOnly       // ^\s*$
    | OneOrTwoChars   // ^.{1,2}$

  /** The replies that earn no XP on their own. */
  const ShortReplies: seq<string> := ["ок", "ok", "да", "не", "нет"]

  /** Whether `t` is, in full, a string the pattern describes. */
  predicate MatchesWhole(p: SpamPattern, t: string) {
    match p
    case SingleSign => |t| == 1 && (t[0] == '+' || t[0] == '-' || t[0] == '.')
    case ShortReply => t in ShortReplies
    case SignsOnly => forall i :: 0 <= i < |t| ==> t[i] == '+' || t[i] == '-'
    case BlankOnly => forall i :: 0 <= i < |t| ==> IsSpace(t[i])
    case OneOrTwoChars => 1 <= |t| <= 2 && forall i :: 0 <= i < |t| ==> t[i] != '\n'
  }

  /** `re.match` of an anchored pattern: `$` also matches just before a final line feed. */
  predicate Matches(p: SpamPattern, t: string) {
    MatchesWhole(p, t) || (|t| > 0 && t[|t| - 1] == '\n' && MatchesWhole(p, t[..|t| - 1]))
  }

  /** Whether one of the five patterns matches `t`. */
  predicate MatchesSomePattern(t: string) {
    Matches(SingleSign, t) || Matches(ShortReply, t) || Matches(SignsOnly, t) || Matches(BlankOnly, t)
    || Matches(OneOrTwoChars, t)
  }

  /**
   * The shapes of a stripped, lowered message that earn no XP: at most two characters,
   * only `+` and `-`, or one of the short replies.
   */
  predicate SpamShape(t: string) {
    |t| <= 2 || (forall i :: 0 <= i < |t| ==> t[i] == '+' || t[i] == '-') || t in ShortReplies
  }

  /** Whether a chat message earns no XP: it is empty, or its stripped, lowered text has a spam shape. */
  function IsSpamMessage(text: string): (r: bool)
    ensures r <==> text == "" || SpamShape(Lower(Strip(text)))
  {
    var t := Lower(Strip(text));
    LowerKeepsEnds(Strip(text));
    SpamIffShapes(t);
    if text == "" then true
    else MatchesSomePattern(t)
  }

  /** Lowering a stripped string leaves it stripped. */
  lemma LowerKeepsEnds(s: string)
    requires s == [] || (!IsSpace(s[0]) && !IsSpace(s[|s| - 1]))
    ensures Lower(s) == [] || (!IsSpace(Lower(s)[0]) && !IsSpace(Lower(s)[|s| - 1]))
  {
    if s != [] {
      assert Lower(s)[0] == LowerChar(s[0]);
      assert Lower(s)[|s| - 1] == LowerChar(s[|s| - 1]);
    }
  }

  /** On a stripped and lowered message, the five patterns together say exactly the shapes above. */
  lemma SpamIffShapes(t: string)
    requires t == [] || (!IsSpace(t[0]) && !IsSpace(t[|t| - 1]))
    ensures MatchesSomePattern(t) <==> SpamShape(t)
  {
    if |t| == 0 {
      assert MatchesWhole(BlankOnly, t);
    } else {
      assert t[|t| - 1] != '\n';
      assert forall p :: Matches(p, t) <==> MatchesWhole(p, t);
      assert !MatchesWhole(BlankOnly, t) by { assert !IsSpace(t[0]); }
      if |t| <= 2 {
        assert t[0] != '\n';
        assert MatchesWhole(OneOrTwoChars, t);
      }
    }
  }

  // ---------------------------------------------------------------------------------------
  // The XP service

  /** What a message grant reports: a promotion, or the unchanged rank. */
  datatype XpOutcome =
    | Promoted(xp: int, oldRank: string, newRank: string)
    | Unchanged(xp: int, rank: string)

  /** The reasons the XP system writes to the audit log. */
  const MessageReason := "Сообщение в чате"
  const AdminGrantReason := "Административное начисление"
  const AdminRemoveReason := "Административное списание"
  const AdminSetReason := "Административная установка XP"

  /** A user's profile as shown by the profile command. */
  datatype Profile = Profile(
    userId: int,
    username: Option<string>,
    firstName: Option<string>,
    xp: int,
    rank: string,
    dailyXp: int,
    nextRank: Option<NextRank>)

  /** Whether the rank check after an XP change moves `row` to another rank. */
  predicate RankMoves(row: UserRow) {
    row.rank !in SpecialRanks && CalculateRankFromXp(row.xp) != row.rank
  }

  /**
   * The row the rank check leaves: a special rank, or one that already matches the XP, is
   * left alone; otherwise the rank becomes the rank of the XP and the row is stamped `now`.
   */
  function Settled(row: UserRow, now: int): (r: UserRow)
    ensures r.xp == row.xp && r.dailyXp == row.dailyXp && r.dailyXpDate == row.dailyXpDate
    ensures r.lastXpTime == row.lastXpTime && r.username == row.username && r.firstName == row.firstName
    ensures row.rank in SpecialRanks ==> r == row
    ensures row.rank !in SpecialRanks ==> r.rank == CalculateRankFromXp(row.xp)
  {
    if RankMoves(row) then row.(rank := CalculateRankFromXp(row.xp), updatedAt := now) else row
  }

  /** The audit entry the rank check writes: one when the rank moves, none otherwise. */
  function RankLog(u: int, row: UserRow, adminId: Option<int>): (log: seq<HistoryEntry>)
    ensures |log| == if RankMoves(row) then 1 else 0
    ensures RankMoves(row) ==> log[0].userId == u && log[0].xpChange == 0 && log[0].adminId == adminId
  {
    if RankMoves(row) then [HistoryEntry(u, 0, "Ранг изменен на: " + CalculateRankFromXp(row.xp), adminId)]
    else []
  }

  /**
   * How a message's grant leaves a user's row: unchanged without a result; with one, exactly
   * one more XP, granted now and counted against today's allowance, and the rank settled: a
   * special rank stays, an ordinary one becomes the rank of the new XP, and a change is
   * reported as a promotion.
   */
  predicate GrantedOnce(before: UserRow, after: UserRow, r: Option<XpOutcome>, now: int, today: int) {
    && after.username == before.username && after.firstName == before.firstName
    && (r.None? ==> after == before)
    && (r.Some? ==>
          && after == Settled(WithGrant(before, 1, today, now), now)
          && (r.value.Unchanged? ==> r.value.rank == after.rank)
          && after.dailyXp == DailySoFar(before, today) + 1
          && after.xp == before.xp + 1 && r.value.xp == after.xp
          && after.lastXpTime == Some(now) && after.dailyXpDate == today
          && (before.rank in SpecialRanks ==> after.rank == before.rank && r.value == Unchanged(after.xp, after.rank))
          && (before.rank !in SpecialRanks ==> after.rank == CalculateRankFromXp(after.xp))
          && (r.value.Promoted? <==> before.rank !in SpecialRanks && CalculateRankFromXp(after.xp) != before.rank)
          && (r.value.Promoted? ==> r.value.oldRank == before.rank && r.value.newRank == after.rank))
  }

  class XPSystem {
    const db: XPDatabase

    constructor ()
      ensures fresh(db) && db.users == map[] && db.history == []
    {
      db := new XPDatabase();
    }

    /**
     * One chat message from `u`: registers the user, then grants exactly one XP unless the
     * message is spam or the user is within the grant cooldown or at today's cap, and moves
     * the user to the rank the new XP calls for unless the current rank is special.
     */
    method ProcessMessageXp(u: int, username: Option<string>, firstName: Option<string>, text: string,
                            now: int, today: int)
      returns (r: Option<XpOutcome>)
      modifies db
      ensures db.users.Keys == old(db.users).Keys + {u}
      ensures forall v :: v in db.users && v != u ==> db.users[v] == old(db.users)[v]
      ensures r.Some? <==> !IsSpamMessage(text) && old(db.CanGainXp(u, now, today))
      ensures r.None? ==> db.history == old(db.history)
      ensures r.Some? ==>
                var granted := WithGrant(Registered(old(db.users), u, username, firstName, now, today), 1, today, now);
                db.history == old(db.history) + [HistoryEntry(u, 1, MessageReason, None)] + RankLog(u, granted, None)
      ensures GrantedOnce(Registered(old(db.users), u, username, firstName, now, today), db.users[u], r, now, today)
      ensures r.Some? ==> db.users[u].dailyXp <= DailyCap
    {
      ghost var canGain := db.CanGainXp(u, now, today);
      var _ := db.CreateOrUpdateUser(u, username, firstName, now, today);
      assert db.CanGainXp(u, now, today) == canGain;
      r := GrantForMessage(u, text, now, today);
    }

    /**
     * The part of a message's processing after registration: the spam check, the grant check,
     * the one-XP grant and the rank check.
     */
    method GrantForMessage(u: int, text: string, now: int, today: int) returns (r: Option<XpOutcome>)
      requires u in db.users
      modifies db
      ensures u in db.users && db.users.Keys == old(db.users).Keys
      ensures forall v :: v in db.users && v != u ==> db.users[v] == old(db.users)[v]
      ensures r.Some? <==> !IsSpamMessage(text) && old(db.CanGainXp(u, now, today))
      ensures r.None? ==> db.history == old(db.history)
      ensures r.Some? ==>
                db.history == old(db.history) + [HistoryEntry(u, 1, MessageReason, None)]
                              + RankLog(u, WithGrant(old(db.users)[u], 1, today, now), None)
      ensures GrantedOnce(old(db.users)[u], db.users[u], r, now, today)
      ensures r.Some? ==> db.users[u].dailyXp <= DailyCap
    {
      if IsSpamMessage(text) {
        return None;
      }
      if !db.CanGainXp(u, now, today) {
        return None;
      }
      var row := db.users[u];
      assert Grantable(row, 1, false, today) == 1;
      var success := db.AddXp(u, 1, MessageReason, None, now, today);
      if !success {
        return None;
      }
      assert db.users[u] == WithGrant(row, 1, today, now);
      var outcome := SettleRank(u, now);
      return Some(outcome);
    }

    /**
     * The rank check after a message grant: an ordinary rank moves to the rank the user's XP
     * calls for, reported as a promotion when it changes; a special rank stays as it is.
     */
    method SettleRank(u: int, now: int) returns (outcome: XpOutcome)
      requires u in db.users
      modifies db
      ensures u in db.users && db.users.Keys == old(db.users).Keys
      ensures forall v :: v in db.users && v != u ==> db.users[v] == old(db.users)[v]
      ensures db.users[u] == Settled(old(db.users)[u], now) && outcome.xp == db.users[u].xp
      ensures outcome.Unchanged? ==> outcome.rank == db.users[u].rank
      ensures db.history == old(db.history) + RankLog(u, old(db.users)[u], None)
      ensures old(db.users)[u].rank in SpecialRanks ==>
                db.users[u].rank == old(db.users)[u].rank && outcome == Unchanged(db.users[u].xp, db.users[u].rank)
      ensures old(db.users)[u].rank !in SpecialRanks ==> db.users[u].rank == CalculateRankFromXp(db.users[u].xp)
      ensures outcome.Promoted? <==>
                old(db.users)[u].rank !in SpecialRanks && CalculateRankFromXp(old(db.users)[u].xp) != old(db.users)[u].rank
      ensures outcome.Promoted? ==> outcome.oldRank == old(db.users)[u].rank && outcome.newRank == db.users[u].rank
    {
      var user := db.users[u];
      var currentRank := user.rank;
      var newRank := CalculateRankFromXp(user.xp);
      if currentRank !in SpecialRanks && newRank != currentRank {
        var _ := db.SetRank(u, newRank, None, now);
        return Promoted(user.xp, currentRank, newRank);
      }
      return Unchanged(user.xp, user.rank);
    }

    /**
     * The profile of `u`. Administrators are shown with the administrator rank; the next
     * rank is offered only to ordinary users below the top threshold.
     */
    function GetUserProfile(u: int, isAdmin: bool): (p: Option<Profile>)
      reads db
      ensures p.Some? <==> u in db.users
      ensures p.Some? ==> p.value.userId == u && p.value.xp == db.users[u].xp && p.value.dailyXp == db.users[u].dailyXp
      ensures p.Some? ==> p.value.username == db.users[u].username && p.value.firstName == db.users[u].firstName
      ensures p.Some? ==> p.value.rank == if isAdmin then AdminRank else db.users[u].rank
      ensures p.Some? ==>
                (p.value.nextRank.None? <==> isAdmin || db.users[u].rank in SpecialRanks || db.users[u].xp >= 1000)
      ensures p.Some? && p.value.nextRank.Some? ==>
                p.value.nextRank.value.xpNeeded > 0 && db.users[u].xp + p.value.nextRank.value.xpNeeded == p.value.nextRank.value.threshold
      ensures p.Some? ==>
                p.value.nextRank == if !isAdmin && db.users[u].rank !in SpecialRanks then NextRankAfter(db.users[u].xp) else None
    {
      if u !in db.users then None
      else
        var user := db.users[u];
        var next := if !isAdmin && user.rank !in SpecialRanks then NextRankAfter(user.xp) else None;
        Some(Profile(u, user.username, user.firstName, user.xp, if isAdmin then AdminRank else user.rank,
                     user.dailyXp, next))
    }

    /**
     * An administrator grants `amount` XP to a known user, bypassing the daily cap, and the
     * rank follows the new XP unless it is special.
     */
    method AddXpAdmin(u: int, amount: int, adminId: int, now: int, today: int) returns (ok: bool)
      modifies db
      ensures ok <==> u in old(db.users) && amount > 0
      ensures !ok ==> db.users == old(db.users) && db.history == old(db.history)
      ensures ok ==> db.users.Keys == old(db.users).Keys
      ensures ok ==> db.users[u] == Settled(WithGrant(old(db.users)[u], amount, today, now), now)
      ensures ok ==>
                db.history == old(db.history) + [HistoryEntry(u, amount, AdminGrantReason, Some(adminId))]
                              + RankLog(u, WithGrant(old(db.users)[u], amount, today, now), Some(adminId))
      ensures ok ==> db.users[u].xp == old(db.users)[u].xp + amount
      ensures ok ==> db.users[u].lastXpTime == Some(now) && db.users[u].dailyXpDate == today
      ensures ok ==> db.users[u].dailyXp == DailySoFar(old(db.users)[u], today) + amount
      ensures ok && old(db.users)[u].rank in SpecialRanks ==> db.users[u].rank == old(db.users)[u].rank
      ensures ok && old(db.users)[u].rank !in SpecialRanks ==> db.users[u].rank == CalculateRankFromXp(db.users[u].xp)
      ensures forall v :: v != u && v in old(db.users) ==> db.users[v] == old(db.users)[v]
    {
      if u !in db.users {
        return false;
      }
      var success := db.AddXp(u, amount, AdminGrantReason, Some(adminId), now, today);
      if !success {
        return false;
      }
      var updated := db.users[u];
      if updated.rank !in SpecialRanks {
        var newRank := CalculateRankFromXp(updated.xp);
        if newRank != updated.rank {
          var _ := db.SetRank(u, newRank, Some(adminId), now);
        }
      }
      return true;
    }

    /**
     * `remove_xp_admin` as written: after finding the user it calls `set_xp`, which the XP
     * ledger does not have; the resulting error is caught and reported as failure, so the
     * command fails for every user and changes nothing.
     */
    method RemoveXpAdminAsWritten(u: int, amount: int, adminId: int) returns (ok: bool)
      ensures !ok
    {
      if u !in db.users {
        return false;
      }
      return false;
    }

    /**
     * `remove_xp_admin` as evidently intended, with the absolute setter: a known user's XP
     * drops by `amount` but not below zero, and the rank follows the new XP unless it is special.
     */
    method RemoveXpAdmin(u: int, amount: int, adminId: int, now: int) returns (ok: bool)
      modifies db
      ensures ok <==> u in old(db.users)
      ensures !ok ==> db.users == old(db.users) && db.history == old(db.history)
      ensures ok ==> db.users.Keys == old(db.users).Keys
      ensures ok ==> db.users[u].xp == Max(0, old(db.users)[u].xp - amount) && db.users[u].xp >= 0
      ensures ok ==>
                var written := old(db.users)[u].(xp := Max(0, old(db.users)[u].xp - amount), updatedAt := now);
                && db.users[u] == Settled(written, now)
                && db.history == old(db.history) + [HistoryEntry(u, written.xp - old(db.users)[u].xp, AdminRemoveReason, Some(adminId))]
                                 + RankLog(u, written, Some(adminId))
      ensures ok && old(db.users)[u].rank in SpecialRanks ==> db.users[u].rank == old(db.users)[u].rank
      ensures ok && old(db.users)[u].rank !in SpecialRanks ==> db.users[u].rank == CalculateRankFromXp(db.users[u].xp)
      ensures forall v :: v != u && v in old(db.users) ==> db.users[v] == old(db.users)[v]
    {
      if u !in db.users {
        return false;
      }
      var user := db.users[u];
      var newXp := Max(0, user.xp - amount);
      var success := db.SetXp(u, newXp, AdminRemoveReason, Some(adminId), now);
      if !success {
        return false;
      }
      if user.rank !in SpecialRanks {
        var newRank := CalculateRankFromXp(newXp);
        if newRank != user.rank {
          var _ := db.SetRank(u, newRank, Some(adminId), now);
        }
      }
      return true;
    }

    /**
     * `set_xp_admin` as written: its first step calls the missing `set_xp`, so the command
     * fails for every user and changes nothing.
     */
    method SetXpAdminAsWritten(u: int, xpAmount: int, adminId: int) returns (ok: bool)
      ensures !ok
    {
      return false;
    }

    /**
     * `set_xp_admin` as evidently intended: a known user's XP becomes `xpAmount`, and the rank
     * follows it unless it is special.
     */
    method SetXpAdmin(u: int, xpAmount: int, adminId: int, now: int) returns (ok: bool)
      modifies db
      ensures ok <==> u in old(db.users)
      ensures !ok ==> db.users == old(db.users) && db.history == old(db.history)
      ensures ok ==> db.users.Keys == old(db.users).Keys
      ensures ok ==> db.users[u].xp == xpAmount
      ensures ok ==>
                var written := old(db.users)[u].(xp := xpAmount, updatedAt := now);
                && db.users[u] == Settled(written, now)
                && db.history == old(db.history) + [HistoryEntry(u, xpAmount - old(db.users)[u].xp, AdminSetReason, Some(adminId))]
                                 + RankLog(u, written, Some(adminId))
      ensures ok && old(db.users)[u].rank in SpecialRanks ==> db.users[u].rank == old(db.users)[u].rank
      ensures ok && old(db.users)[u].rank !in SpecialRanks ==> db.users[u].rank == CalculateRankFromXp(xpAmount)
      ensures forall v :: v != u && v in old(db.users) ==> db.users[v] == old(db.users)[v]
    {
      var success := db.SetXp(u, xpAmount, AdminSetReason, Some(adminId), now);
      if !success {
        return false;
      }
      var user := db.users[u];
      if user.rank !in SpecialRanks {
        var newRank := CalculateRankFromXp(xpAmount);
        if newRank != user.rank {
          var _ := db.SetRank(u, newRank, Some(adminId), now);
        }
      }
      return true;
    }

    /** `reset_xp_admin` as written: it is `set_xp_admin` with zero, so it always fails. */
    method ResetXpAdminAsWritten(u: int, adminId: int) returns (ok: bool)
      ensures !ok
    {
      ok := SetXpAdminAsWritten(u, 0, adminId);
    }

    /**
     * `reset_xp_admin` as evidently intended: a known user's XP becomes zero, and an ordinary
     * rank falls back to the base rank.
     */
    method ResetXpAdmin(u: int, adminId: int, now: int) returns (ok: bool)
      modifies db
      ensures ok <==> u in old(db.users)
      ensures !ok ==> db.users == old(db.users) && db.history == old(db.history)
      ensures ok ==> db.users.Keys == old(db.users).Keys
      ensures ok ==> db.users[u].xp == 0
      ensures ok ==>
                var written := old(db.users)[u].(xp := 0, updatedAt := now);
                && db.users[u] == Settled(written, now)
                && db.history == old(db.history) + [HistoryEntry(u, -old(db.users)[u].xp, AdminSetReason, Some(adminId))]
                                 + RankLog(u, written, Some(adminId))
      ensures ok && old(db.users)[u].rank !in SpecialRanks ==> db.users[u].rank == BaseRank
      ensures ok && old(db.users)[u].rank in SpecialRanks ==> db.users[u].rank == old(db.users)[u].rank
      ensures forall v :: v != u && v in old(db.users) ==> db.users[v] == old(db.users)[v]
    {
      ok := SetXpAdmin(u, 0, adminId, now);
    }

    /** An administrator sets any rank, special ones included; this always reports success. */
    method SetRankAdmin(u: int, rank: string, adminId: int, now: int) returns (ok: bool)
      modifies db
      ensures ok
      ensures u in old(db.users) ==> db.users == old(db.users)[u := old(db.users)[u].(rank := rank, updatedAt := now)]
      ensures u !in old(db.users) ==> db.users == old(db.users)
      ensures db.history == old(db.history) + [HistoryEntry(u, 0, "Ранг изменен на: " + rank, Some(adminId))]
    {
      ok := db.SetRank(u, rank, Some(adminId), now);
    }

    /**
     * `get_leaderboard` as written: it asks the XP ledger for `get_leaderboard`, which the
     * ledger does not have, and the caught error yields the empty list.
     */
    method GetLeaderboard(limit: int) returns (top: seq<TopRow>)
      ensures top == []
    {
      top := [];
    }
  }
}
