/**
 * The XP ledger (`XPDatabase` in database.py) with the SQLite tables replaced by an
 * in-memory map (`xp_users`) and an append-only sequence (`xp_history`). `now` is the
 * current time in whole seconds and `today` the current local date as a day number;
 * both are parameters.
 */
module XpStore {
  import opened Wrappers

  /** The rank every user starts with and returns to on a reset. */
  const BaseRank := "Новачок"
  /** Minimum number of seconds between two grants. */
  const XpCooldownSeconds := 60
  /** Most XP a user can earn per day outside administrative grants. */
  const DailyCap := 100

  /** One row of `xp_users`. */
  datatype UserRow = UserRow(
    username: Option<string>,
    firstName: Option<string>,
    xp: int,
    rank: string,
    lastXpTime: Option<int>,
    dailyXp: int,
    dailyXpDate: int,
    createdAt: int,
    updatedAt: int)

  /** One row of `xp_history`. */
  datatype HistoryEntry = HistoryEntry(userId: int, xpChange: int, reason: string, adminId: Option<int>)

  /** The columns `get_top_users` selects. */
  datatype TopRow = TopRow(userId: int, username: Option<string>, firstName: Option<string>, xp: int, rank: string)

  function Max(a: int, b: int): int {
    if a >= b then a else b
  }

  function Min(a: int, b: int): int {
    if a <= b then a else b
  }

  /** XP already earned today: the stored counter if it was last set today, else zero. */
  function DailySoFar(row: UserRow, today: int): (d: int)
    ensures row.dailyXpDate != today ==> d == 0
  {
    if row.dailyXpDate == today then row.dailyXp else 0
  }

  /**
   * How much of a requested `amount` `add_xp` grants: all of it for an administrator,
   * otherwise at most what is left of today's cap.
   */
  function Grantable(row: UserRow, amount: int, byAdmin: bool, today: int): (g: int)
    ensures byAdmin ==> g == amount
    ensures DailySoFar(row, today) + amount <= DailyCap ==> g == amount
    ensures !byAdmin && g > 0 ==> DailySoFar(row, today) + g <= DailyCap
    ensures !byAdmin && DailySoFar(row, today) >= DailyCap ==> g <= 0
    ensures !byAdmin && DailySoFar(row, today) + amount > DailyCap ==> g == Max(0, DailyCap - DailySoFar(row, today))
  {
    var current := DailySoFar(row, today);
    if current + amount > DailyCap && !byAdmin then Max(0, DailyCap - current) else amount
  }

  /** The row `add_xp` writes back after granting `g` XP. */
  function WithGrant(row: UserRow, g: int, today: int, now: int): (r: UserRow)
    ensures r.xp == row.xp + g && r.dailyXp == DailySoFar(row, today) + g
    ensures r.dailyXpDate == today && r.lastXpTime == Some(now)
    ensures r.rank == row.rank && r.username == row.username && r.firstName == row.firstName
  {
    row.(xp := row.xp + g, dailyXp := DailySoFar(row, today) + g, dailyXpDate := today,
         lastXpTime := Some(now), updatedAt := now)
  }

  /** The outcome of a sequence of ordinary (non-administrative) grant requests on one day. */
  function GrantAll(row: UserRow, amounts: seq<int>, today: int, now: int): UserRow
    decreases |amounts|
  {
    if amounts == [] then row
    else
      var g := Grantable(row, amounts[0], false, today);
      GrantAll(if g > 0 then WithGrant(row, g, today, now) else row, amounts[1..], today, now)
  }

  /**
   * However many ordinary grants are requested on one day, and of whatever sizes, a user
   * who starts the day within the cap stays within it.
   */
  lemma {:induction false} DailyCapHolds(row: UserRow, amounts: seq<int>, today: int, now: int)
    requires DailySoFar(row, today) <= DailyCap
    ensures DailySoFar(GrantAll(row, amounts, today, now), today) <= DailyCap
    decreases |amounts|
  {
    if amounts != [] {
      var g := Grantable(row, amounts[0], false, today);
      DailyCapHolds(if g > 0 then WithGrant(row, g, today, now) else row, amounts[1..], today, now);
    }
  }

  /**
   * The row `create_or_update_user` leaves for `u`: a new user starts with no XP, the base
   * rank and nothing earned today; a known user only gets its names and update time refreshed.
   */
  function Registered(users: map<int, UserRow>, u: int, username: Option<string>, firstName: Option<string>,
                      now: int, today: int): (r: UserRow)
    ensures r.username == username && r.firstName == firstName && r.updatedAt == now
    ensures u !in users ==> r == UserRow(username, firstName, 0, BaseRank, None, 0, today, now, now)
    ensures u in users ==> r.(username := users[u].username, firstName := users[u].firstName, updatedAt := users[u].updatedAt) == users[u]
  {
    if u in users then users[u].(username := username, firstName := firstName, updatedAt := now)
    else UserRow(username, firstName, 0, BaseRank, None, 0, today, now, now)
  }

  /** The leaderboard row of user `u`. */
  function Summary(u: int, row: UserRow): TopRow {
    TopRow(u, row.username, row.firstName, row.xp, row.rank)
  }

  /**
   * `top` is a partial leaderboard of `users` and `rest` the users not yet listed: rows are
   * faithful, distinct and in non-increasing XP order, and nobody left has more XP than
   * anybody listed.
   */
  ghost predicate Ranked(users: map<int, UserRow>, top: seq<TopRow>, rest: set<int>) {
    && users.Keys == rest + IdsOf(top) && rest !! IdsOf(top)
    && (forall i :: 0 <= i < |top| ==> top[i].userId in users && top[i] == Summary(top[i].userId, users[top[i].userId]))
    && (forall i, j :: 0 <= i < j < |top| ==> top[i].userId != top[j].userId)
    && (forall i, j :: 0 <= i < j < |top| ==> top[i].xp >= top[j].xp)
    && (forall u, i :: u in rest && 0 <= i < |top| ==> users[u].xp <= top[i].xp)
  }

  /** Listing a remaining user with the most XP extends a partial leaderboard. */
  lemma RankedStep(users: map<int, UserRow>, top: seq<TopRow>, rest: set<int>, best: int)
    requires Ranked(users, top, rest)
    requires best in rest && forall u :: u in rest ==> users[u].xp <= users[best].xp
    ensures Ranked(users, top + [Summary(best, users[best])], rest - {best})
  {
    var t := top + [Summary(best, users[best])];
    IdsOfAppend(top, Summary(best, users[best]));
    forall i | 0 <= i < |top| ensures top[i].userId != best {
      assert top[i].userId in IdsOf(top);
    }
    assert forall i :: 0 <= i < |top| ==> t[i] == top[i];
  }

  /** The user ids listed in a leaderboard. */
  function IdsOf(top: seq<TopRow>): set<int> {
    set i | 0 <= i < |top| :: top[i].userId
  }

  /** Listing one more row adds its user id. */
  lemma IdsOfAppend(top: seq<TopRow>, r: TopRow)
    ensures IdsOf(top + [r]) == IdsOf(top) + {r.userId}
  {
    var t := top + [r];
    forall u ensures u in IdsOf(t) <==> u in IdsOf(top) + {r.userId} {
      if u in IdsOf(t) {
        var i :| 0 <= i < |t| && t[i].userId == u;
        if i < |top| { assert top[i].userId == u; }
      }
      if u in IdsOf(top) {
        var i :| 0 <= i < |top| && top[i].userId == u;
        assert t[i].userId == u;
      }
      if u == r.userId { assert t[|top|].userId == u; }
    }
  }

  /** A set is empty or has a member. */
  lemma EmptyOrMember(s: set<int>)
    ensures s == {} || exists u :: u in s
  {
    var none: set<int> := {};
    if forall u :: u !in s {
      assert forall u :: u in s <==> u in none;
    }
  }

  /** A non-empty set of stored users has one with the most XP. */
  lemma {:induction false} HighestXpExists(users: map<int, UserRow>, rest: set<int>)
    requires rest != {} && rest <= users.Keys
    ensures exists b :: b in rest && forall u :: u in rest ==> users[u].xp <= users[b].xp
    decreases rest
  {
    EmptyOrMember(rest);
    var x :| x in rest;
    if rest != {x} {
      EmptyOrMember(rest - {x});
      HighestXpExists(users, rest - {x});
      var b :| b in rest - {x} && forall u :: u in rest - {x} ==> users[u].xp <= users[b].xp;
      if users[x].xp > users[b].xp {
        assert forall u :: u in rest ==> users[u].xp <= users[x].xp;
      } else {
        assert forall u :: u in rest ==> users[u].xp <= users[b].xp;
      }
    }
  }

  class XPDatabase {
    /** `xp_users`, keyed by user id. */
    var users: map<int, UserRow>
    /** `xp_history`, oldest entry first. */
    var history: seq<HistoryEntry>

    constructor ()
      ensures users == map[] && history == []
    {
      users := map[];
      history := [];
    }

    /** `get_user`: the stored row of `u`, if any. */
    function GetUser(u: int): (r: Option<UserRow>)
      reads this
      ensures r.Some? <==> u in users
      ensures r.Some? ==> r.value == users[u]
    {
      if u in users then Some(users[u]) else None
    }

    /**
     * Inserts `u` with no XP and the base rank if it is new, then refreshes its names.
     * An existing user keeps everything but its names and update time.
     */
    method CreateOrUpdateUser(u: int, username: Option<string>, firstName: Option<string>, now: int, today: int)
      returns (ok: bool)
      modifies this`users
      ensures ok
      ensures users == old(users)[u := Registered(old(users), u, username, firstName, now, today)]
    {
      if u !in users {
        users := users[u := UserRow(username, firstName, 0, BaseRank, None, 0, today, now, now)];
      }
      users := users[u := users[u].(username := username, firstName := firstName, updatedAt := now)];
      ok := true;
    }

    /**
     * Whether a chat message may earn XP: always for an unknown user; never within a minute
     * of the last grant, nor once today's cap is reached.
     */
    function CanGainXp(u: int, now: int, today: int): (r: bool)
      reads this
      ensures u !in users ==> r
      ensures u in users ==>
                (r <==> !(users[u].lastXpTime.Some? && now - users[u].lastXpTime.value < XpCooldownSeconds)
                        && !(users[u].dailyXpDate == today && users[u].dailyXp >= DailyCap))
      ensures r && u in users ==> Grantable(users[u], 1, false, today) == 1
    {
      if u !in users then true
      else
        var row := users[u];
        if row.lastXpTime.Some? && now - row.lastXpTime.value < XpCooldownSeconds then false
        else if row.dailyXpDate == today && row.dailyXp >= DailyCap then false
        else true
    }

    /**
     * Grants `amount` XP to `u`, trimmed to today's remaining allowance unless an administrator
     * grants it, and logs the granted amount. Nothing changes when `u` is unknown or nothing
     * is left to grant.
     */
    method AddXp(u: int, amount: int, reason: string, adminId: Option<int>, now: int, today: int)
      returns (ok: bool)
      modifies this
      ensures ok <==> u in old(users) && Grantable(old(users)[u], amount, adminId.Some?, today) > 0
      ensures !ok ==> users == old(users) && history == old(history)
      ensures ok ==>
                var g := Grantable(old(users)[u], amount, adminId.Some?, today);
                && users == old(users)[u := WithGrant(old(users)[u], g, today, now)]
                && history == old(history) + [HistoryEntry(u, g, reason, adminId)]
      ensures ok && adminId.None? ==> users[u].dailyXp <= DailyCap
      ensures ok && adminId.Some? ==> users[u].xp == old(users)[u].xp + amount
    {
      if u !in users {
        return false;
      }
      var row := users[u];
      var current := if row.dailyXpDate == today then row.dailyXp else 0;
      var granted := amount;
      if current + granted > DailyCap && adminId.None? {
        granted := Max(0, DailyCap - current);
      }
      if granted <= 0 {
        return false;
      }
      users := users[u := row.(xp := row.xp + granted, dailyXp := current + granted, dailyXpDate := today,
                                lastXpTime := Some(now), updatedAt := now)];
      history := history + [HistoryEntry(u, granted, reason, adminId)];
      ok := true;
    }

    /**
     * Takes `amount` XP from `u`, never going below zero, and logs `-amount` even when
     * the result was clamped.
     */
    method RemoveXp(u: int, amount: int, reason: string, adminId: Option<int>, now: int) returns (ok: bool)
      modifies this
      ensures ok <==> u in old(users)
      ensures !ok ==> users == old(users) && history == old(history)
      ensures ok ==>
                && users == old(users)[u := old(users)[u].(xp := Max(0, old(users)[u].xp - amount), updatedAt := now)]
                && history == old(history) + [HistoryEntry(u, -amount, reason, adminId)]
      ensures ok ==> users[u].xp >= 0 && users[u].xp <= Max(0, old(users)[u].xp - amount)
    {
      if u !in users {
        return false;
      }
      var newXp := Max(0, users[u].xp - amount);
      users := users[u := users[u].(xp := newXp, updatedAt := now)];
      history := history + [HistoryEntry(u, -amount, reason, adminId)];
      ok := true;
    }

    /**
     * Stores `rank` for `u` and logs the change. It reports success and logs even when
     * there is no row for `u`, in which case no row changes.
     */
    method SetRank(u: int, rank: string, adminId: Option<int>, now: int) returns (ok: bool)
      modifies this
      ensures ok
      ensures u in old(users) ==> users == old(users)[u := old(users)[u].(rank := rank, updatedAt := now)]
      ensures u !in old(users) ==> users == old(users)
      ensures history == old(history) + [HistoryEntry(u, 0, "Ранг изменен на: " + rank, adminId)]
    {
      if u in users {
        users := users[u := users[u].(rank := rank, updatedAt := now)];
      }
      history := history + [HistoryEntry(u, 0, "Ранг изменен на: " + rank, adminId)];
      ok := true;
    }

    /**
     * Puts `u` back to no XP, the base rank and nothing earned today, keeping the date of
     * the daily counter and the time of the last grant; logs the reset.
     */
    method ResetXp(u: int, adminId: Option<int>, now: int) returns (ok: bool)
      modifies this
      ensures ok
      ensures u in old(users) ==>
                users == old(users)[u := old(users)[u].(xp := 0, rank := BaseRank, dailyXp := 0, updatedAt := now)]
      ensures u in old(users) ==>
                users[u].dailyXpDate == old(users)[u].dailyXpDate && users[u].lastXpTime == old(users)[u].lastXpTime
      ensures u !in old(users) ==> users == old(users)
      ensures history == old(history) + [HistoryEntry(u, 0, "XP сброшен", adminId)]
    {
      if u in users {
        users := users[u := users[u].(xp := 0, rank := BaseRank, dailyXp := 0, updatedAt := now)];
      }
      history := history + [HistoryEntry(u, 0, "XP сброшен", adminId)];
      ok := true;
    }

    /**
     * An absolute XP setter. database.py has no such operation; this one is added so that
     * the administrative commands that call it can be modelled as evidently intended. It
     * fails for an unknown user and otherwise stores `xp` and logs the difference.
     */
    method SetXp(u: int, xp: int, reason: string, adminId: Option<int>, now: int) returns (ok: bool)
      modifies this
      ensures ok <==> u in old(users)
      ensures !ok ==> users == old(users) && history == old(history)
      ensures ok ==>
                && users == old(users)[u := old(users)[u].(xp := xp, updatedAt := now)]
                && history == old(history) + [HistoryEntry(u, xp - old(users)[u].xp, reason, adminId)]
    {
      if u !in users {
        return false;
      }
      history := history + [HistoryEntry(u, xp - users[u].xp, reason, adminId)];
      users := users[u := users[u].(xp := xp, updatedAt := now)];
      ok := true;
    }

    /**
     * The leaderboard: up to `limit` distinct users (all of them for a negative limit, as
     * SQLite reads `LIMIT -1`) in non-increasing XP order, and no user left out has more
     * XP than any user listed.
     */
    method GetTopUsers(limit: int) returns (top: seq<TopRow>)
      ensures |top| == if limit < 0 then |users| else Min(limit, |users|)
      ensures forall i :: 0 <= i < |top| ==> top[i].userId in users && top[i] == Summary(top[i].userId, users[top[i].userId])
      ensures forall i, j :: 0 <= i < j < |top| ==> top[i].userId != top[j].userId
      ensures forall i, j :: 0 <= i < j < |top| ==> top[i].xp >= top[j].xp
      ensures forall u, i :: u in users && u !in IdsOf(top) && 0 <= i < |top| ==> users[u].xp <= top[i].xp
    {
      var n := if limit < 0 then |users| else Min(limit, |users|);
      var rest := users.Keys;
      top := [];
      while |top| < n
        invariant |top| <= n && |rest| + |top| == |users|
        invariant Ranked(users, top, rest)
        decreases n - |top|
      {
        EmptyOrMember(rest);
        HighestXpExists(users, rest);
        var best :| best in rest && forall u :: u in rest ==> users[u].xp <= users[best].xp;
        RankedStep(users, top, rest, best);
        top := top + [Summary(best, users[best])];
        rest := rest - {best};
      }
    }
  }
}
