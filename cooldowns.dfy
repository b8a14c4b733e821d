/**
 * The per-user, per-category post cooldown ledger (`CooldownManager` in
 * cooldown_manager.py). Wall-clock time is the parameter `now`, in whole
 * seconds; loading and saving the ledger to a JSON file is not modelled, so a
 * save is a no-op here.
 */
module Cooldowns {
  import opened Wrappers
  import opened Text

  type UserId = int
  type Category = string

  /** The window used when the manager is built without an explicit one: one hour. */
  const DefaultCooldownSeconds := 3600

  /** What `check_cooldown` returns: `(is_in_cooldown, remaining_seconds)`. */
  datatype Status = Status(inCooldown: bool, remaining: Option<int>)

  /** The per-category entry stored for `u`, or the empty entry when there is none. */
  function EntryOf(m: map<UserId, map<Category, int>>, u: UserId): map<Category, int> {
    if u in m then m[u] else map[]
  }

  class CooldownManager {
    /** The default window length, in seconds. */
    const cooldownSeconds: int
    /** Last accepted post time per user and category (`user_cooldowns`). */
    var userCooldowns: map<UserId, map<Category, int>>
    /** Retry counters per (user, category) pair (`temporary_attempts`). */
    var temporaryAttempts: map<(UserId, Category), int>
    /** Per-user window overrides per category (`user_custom_cooldowns`). */
    var userCustomCooldowns: map<UserId, map<Category, int>>

    /** A manager whose ledger starts empty (no stored file is read). */
    constructor (cooldownSeconds: int)
      ensures this.cooldownSeconds == cooldownSeconds
      ensures userCooldowns == map[] && temporaryAttempts == map[] && userCustomCooldowns == map[]
    {
      this.cooldownSeconds := cooldownSeconds;
      userCooldowns := map[];
      temporaryAttempts := map[];
      userCustomCooldowns := map[];
    }

    /** A manager built without an explicit window: one hour, and an empty ledger. */
    constructor Default()
      ensures cooldownSeconds == DefaultCooldownSeconds
      ensures userCooldowns == map[] && temporaryAttempts == map[] && userCustomCooldowns == map[]
    {
      cooldownSeconds := DefaultCooldownSeconds;
      userCooldowns := map[];
      temporaryAttempts := map[];
      userCustomCooldowns := map[];
    }

    /** The window that applies to `u` in category `c`: the user's override, else the default. */
    function GetUserCooldownSeconds(u: UserId, c: Category): (w: int)
      reads this
      ensures u in userCustomCooldowns && c in userCustomCooldowns[u] ==> w == userCustomCooldowns[u][c]
      ensures !(u in userCustomCooldowns && c in userCustomCooldowns[u]) ==> w == cooldownSeconds
    {
      if u in userCustomCooldowns && c in userCustomCooldowns[u] then userCustomCooldowns[u][c]
      else cooldownSeconds
    }

    /**
     * Whether `u` is still inside the window opened by its last post in `c`, and how many
     * whole seconds of it are left.
     */
    function CheckCooldown(u: UserId, c: Category, now: int): (s: Status)
      reads this
      ensures !(u in userCooldowns && c in userCooldowns[u]) ==> s == Status(false, None)
      ensures s.inCooldown <==>
                u in userCooldowns && c in userCooldowns[u]
                && now - userCooldowns[u][c] < GetUserCooldownSeconds(u, c)
      ensures s.inCooldown ==>
                s.remaining == Some(userCooldowns[u][c] + GetUserCooldownSeconds(u, c) - now)
                && s.remaining.value > 0
      ensures s.inCooldown && now >= userCooldowns[u][c] ==> s.remaining.value <= GetUserCooldownSeconds(u, c)
      ensures !s.inCooldown ==> s.remaining == None
    {
      if u !in userCooldowns then Status(false, None)
      else if c !in userCooldowns[u] then Status(false, None)
      else
        var elapsed := now - userCooldowns[u][c];
        var window := GetUserCooldownSeconds(u, c);
        if elapsed < window then Status(true, Some(window - elapsed)) else Status(false, None)
    }

    /**
     * Stamps a post by `u` in `c` at `now` and drops that pair's retry counter. From then on
     * the pair is in cooldown exactly during `[now, now + window)`.
     */
    method RecordSuccessfulPost(u: UserId, c: Category, now: int)
      modifies this`userCooldowns, this`temporaryAttempts
      ensures userCooldowns == old(userCooldowns)[u := old(EntryOf(userCooldowns, u))[c := now]]
      ensures temporaryAttempts == old(temporaryAttempts) - {(u, c)}
      ensures forall t :: now <= t < now + GetUserCooldownSeconds(u, c) ==>
                CheckCooldown(u, c, t) == Status(true, Some(now + GetUserCooldownSeconds(u, c) - t))
      ensures forall t :: now + GetUserCooldownSeconds(u, c) <= t ==> CheckCooldown(u, c, t) == Status(false, None)
      ensures forall v, d, t :: (v != u || d != c) ==> CheckCooldown(v, d, t) == old(CheckCooldown(v, d, t))
    {
      var entry := if u in userCooldowns then userCooldowns[u] else map[];
      userCooldowns := userCooldowns[u := entry[c := now]];
      temporaryAttempts := temporaryAttempts - {(u, c)};
    }

    /** The retry counter of `u` in `c`; zero for a pair never seen. */
    function GetAttempts(u: UserId, c: Category): (n: int)
      reads this
      ensures (u, c) !in temporaryAttempts ==> n == 0
      ensures (u, c) in temporaryAttempts ==> n == temporaryAttempts[(u, c)]
    {
      if (u, c) in temporaryAttempts then temporaryAttempts[(u, c)] else 0
    }

    /** Counts one more retry of `u` in `c` and returns the new count. */
    method RecordAttempt(u: UserId, c: Category) returns (n: int)
      modifies this`temporaryAttempts
      ensures n == old(GetAttempts(u, c)) + 1
      ensures temporaryAttempts == old(temporaryAttempts)[(u, c) := n]
    {
      if (u, c) !in temporaryAttempts {
        temporaryAttempts := temporaryAttempts[(u, c) := 0];
      }
      temporaryAttempts := temporaryAttempts[(u, c) := temporaryAttempts[(u, c)] + 1];
      n := temporaryAttempts[(u, c)];
    }

    /** Forgets the retry counter of `u` in `c`. */
    method ResetAttempts(u: UserId, c: Category)
      modifies this`temporaryAttempts
      ensures temporaryAttempts == old(temporaryAttempts) - {(u, c)}
      ensures GetAttempts(u, c) == 0
    {
      if (u, c) in temporaryAttempts {
        temporaryAttempts := temporaryAttempts - {(u, c)};
      }
    }

    /**
     * Clears the stored post time of `u` for `"buy"`, `"sell"`, or every category (`"all"`),
     * and reports whether anything was cleared. Custom windows are left alone.
     */
    method ResetCooldown(u: UserId, category: Category) returns (ok: bool)
      modifies this`userCooldowns
      ensures u !in old(userCooldowns) ==> !ok
      ensures category == "all" ==> ok == (u in old(userCooldowns)) && userCooldowns == old(userCooldowns) - {u}
      ensures (category == "buy" || category == "sell") ==>
                ok == (u in old(userCooldowns) && category in old(userCooldowns)[u])
                && userCooldowns == if ok then old(userCooldowns)[u := old(userCooldowns)[u] - {category}]
                                    else old(userCooldowns)
      ensures category != "all" && category != "buy" && category != "sell" ==>
                !ok && userCooldowns == old(userCooldowns)
      ensures ok ==> forall d, t :: (category == "all" || d == category) ==> CheckCooldown(u, d, t) == Status(false, None)
      ensures forall v, d, t :: v != u ==> CheckCooldown(v, d, t) == old(CheckCooldown(v, d, t))
    {
      if u !in userCooldowns {
        return false;
      }
      if category == "all" {
        userCooldowns := userCooldowns - {u};
        return true;
      } else if category == "buy" || category == "sell" {
        if category in userCooldowns[u] {
          userCooldowns := userCooldowns[u := userCooldowns[u] - {category}];
          return true;
        }
      }
      return false;
    }

    /**
     * Sets the window of `u` for `"buy"`, `"sell"` or both (`"all"`) to `seconds`. A negative
     * length is refused without any change; an unknown category is refused too, but only
     * after an empty per-user entry has been created for `u`.
     */
    method SetCustomCooldown(u: UserId, category: Category, seconds: int) returns (ok: bool)
      modifies this`userCustomCooldowns
      ensures seconds < 0 ==> !ok && userCustomCooldowns == old(userCustomCooldowns)
      ensures seconds >= 0 && category == "all" ==>
                ok && userCustomCooldowns ==
                  old(userCustomCooldowns)[u := old(EntryOf(userCustomCooldowns, u))["buy" := seconds]["sell" := seconds]]
      ensures seconds >= 0 && (category == "buy" || category == "sell") ==>
                ok && userCustomCooldowns == old(userCustomCooldowns)[u := old(EntryOf(userCustomCooldowns, u))[category := seconds]]
      ensures seconds >= 0 && category != "all" && category != "buy" && category != "sell" ==>
                !ok && userCustomCooldowns == old(userCustomCooldowns)[u := old(EntryOf(userCustomCooldowns, u))]
      ensures ok ==> GetUserCooldownSeconds(u, if category == "all" then "buy" else category) == seconds
      ensures ok && category == "all" ==> GetUserCooldownSeconds(u, "sell") == seconds
      ensures forall v, d :: v != u ==> GetUserCooldownSeconds(v, d) == old(GetUserCooldownSeconds(v, d))
    {
      if seconds < 0 {
        return false;
      }
      if u !in userCustomCooldowns {
        userCustomCooldowns := userCustomCooldowns[u := map[]];
      }
      if category == "all" {
        userCustomCooldowns := userCustomCooldowns[u := userCustomCooldowns[u]["buy" := seconds]];
        userCustomCooldowns := userCustomCooldowns[u := userCustomCooldowns[u]["sell" := seconds]];
      } else if category == "buy" || category == "sell" {
        userCustomCooldowns := userCustomCooldowns[u := userCustomCooldowns[u][category := seconds]];
      } else {
        return false;
      }
      return true;
    }
  }

  /** Seconds per unit letter of a time string. */
  function UnitSeconds(unit: char): int {
    match unit
    case 's' => 1
    case 'm' => 60
    case 'h' => 3600
    case 'd' => 86400
    case _ => 0
  }

  predicate IsUnit(c: char) {
    c == 's' || c == 'm' || c == 'h' || c == 'd'
  }

  /**
   * `s` without one final line feed. A regular expression anchored with `$` matches
   * both at the very end and just before a final line feed.
   */
  function DropFinalNewline(s: string): (r: string)
    ensures r == s || r + "\n" == s
  {
    if |s| > 0 && s[|s| - 1] == '\n' then s[..|s| - 1] else s
  }

  /**
   * An administrator's duration such as `30m` or `2H`: one or more decimal digits, then one
   * unit letter `s`, `m`, `h` or `d` in either case (a final line feed is tolerated).
   */
  predicate IsTimeString(s: string) {
    var b := DropFinalNewline(s);
    |b| >= 2 && AllDigits(b[..|b| - 1]) && IsUnit(LowerChar(b[|b| - 1]))
  }

  /** Converts a duration such as `30m` into seconds, or None when it is not of that shape. */
  function ParseTimeString(s: string): (r: Option<int>)
    ensures r.Some? <==> IsTimeString(s)
    ensures r.Some? ==>
              var b := DropFinalNewline(s);
              r.value == DigitsValue(b[..|b| - 1]) * UnitSeconds(LowerChar(b[|b| - 1])) && r.value >= 0
  {
    if s == [] then None
    else
      var t := DropFinalNewline(Lower(s));
      LoweredTimeString(s);
      if |t| >= 2 && AllDigits(t[..|t| - 1]) && IsUnit(t[|t| - 1]) then
        Some(DigitsValue(t[..|t| - 1]) * UnitSeconds(t[|t| - 1]))
      else
        None
  }

  /**
   * Lowering first and dropping the final line feed after reads the same digits and unit
   * letter as reading the original.
   */
  lemma LoweredTimeString(s: string)
    ensures var t := DropFinalNewline(Lower(s));
            var b := DropFinalNewline(s);
            && |t| == |b|
            && (|b| >= 1 ==> t[|t| - 1] == LowerChar(b[|b| - 1]))
            && (|b| >= 1 ==> (AllDigits(t[..|t| - 1]) <==> AllDigits(b[..|b| - 1])))
            && (|b| >= 1 && AllDigits(b[..|b| - 1]) ==> t[..|t| - 1] == b[..|b| - 1])
  {
    var b := DropFinalNewline(s);
    LowerDropFinalNewline(s);
    if |b| >= 1 {
      LowerPrefix(b, |b| - 1);
      LowerOfDigits(b[..|b| - 1]);
    }
  }

  /** Lowering keeps a final line feed where it was. */
  lemma LowerDropFinalNewline(s: string)
    ensures DropFinalNewline(Lower(s)) == Lower(DropFinalNewline(s))
  {
    if |s| > 0 && s[|s| - 1] == '\n' {
      LowerPrefix(s, |s| - 1);
    } else if |s| > 0 {
      assert Lower(s)[|s| - 1] == LowerChar(s[|s| - 1]);
    }
  }

  /** Any count followed by any unit letter, in either case, parses to count times the unit. */
  lemma ParseTimeStringRoundTrip(n: nat, unit: char)
    requires IsUnit(LowerChar(unit))
    ensures ParseTimeString(NatToString(n) + [unit]) == Some(n * UnitSeconds(LowerChar(unit)))
  {
    var s := NatToString(n) + [unit];
    assert DropFinalNewline(s) == s by {
      assert s[|s| - 1] == unit;
      assert unit != '\n';
    }
    assert s[..|s| - 1] == NatToString(n);
    DigitsValueOfNatToString(n);
  }

  /** `divmod` twice: hours, minutes below 60 and seconds below 60 that add up to `n`. */
  function Decompose(n: int): (hms: (int, int, int))
    ensures 0 <= hms.1 < 60 && 0 <= hms.2 < 60
    ensures hms.0 * 3600 + hms.1 * 60 + hms.2 == n
    ensures n >= 0 ==> hms.0 >= 0
  {
    var minutes, seconds := n / 60, n % 60;
    var hours, mins := minutes / 60, minutes % 60;
    assert minutes == hours * 60 + mins;
    assert n == minutes * 60 + seconds;
    (hours, mins, seconds)
  }

  /**
   * The remaining time as shown to users: hours and minutes when there is at least an hour
   * (seconds are dropped), minutes and seconds when there is at least a minute, otherwise
   * seconds alone.
   */
  function FormatRemainingTime(n: int): (r: string)
    ensures Decompose(n).0 > 0 ==>
              r == NatToString(Decompose(n).0) + (if Decompose(n).0 > 1 then " годин" else " година")
                   + " та " + NatToString(Decompose(n).1) + " хвилин"
    ensures Decompose(n).0 <= 0 && Decompose(n).1 > 0 ==>
              r == NatToString(Decompose(n).1) + " хвилин" + (if Decompose(n).1 == 1 then "а" else "")
                   + " та " + NatToString(Decompose(n).2) + " секунд"
    ensures Decompose(n).0 <= 0 && Decompose(n).1 == 0 ==> r == NatToString(Decompose(n).2) + " секунд"
  {
    var (hours, minutes, seconds) := Decompose(n);
    if hours > 0 then
      NatToString(hours) + " год" + (if hours > 1 then "ин" else "ина") + " та " + NatToString(minutes) + " хвилин"
    else if minutes > 0 then
      NatToString(minutes) + " хвилин" + (if minutes == 1 then "а" else "") + " та " + NatToString(seconds) + " секунд"
    else
      NatToString(seconds) + " секунд"
  }
}
