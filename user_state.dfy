/** Per-user conversation state: the stage of the greeting flow each chatter
    is in, keyed by the lower-cased name, with first and last interaction
    times. `Date.now()` is passed in as `now` (milliseconds). */
module UserState {
  import opened Wrappers
  import opened Text

  /** `UserStage`: 0 = not greeted yet, 1 = greeted, 2 = asked a question. */
  type Stage = s: int | 0 <= s <= 2

  /** The `UserState` record. */
  datatype UserRecord = UserRecord(stage: Stage, firstMessageTime: int, lastInteractionTime: int)

  /** The contents of `userStates`. */
  type StateMap = map<string, UserRecord>

  /** The default age after which `cleanupOldStates` forgets a user: one day. */
  const DefaultMaxAgeMs: int := 24 * 60 * 60 * 1000

  /** `getUserStage(username)`: the stored stage of the lower-cased name,
      0 for a name that has no record. */
  function StageOf(m: StateMap, username: string): (s: Stage)
    ensures Lower(username) in m ==> s == m[Lower(username)].stage
    ensures Lower(username) !in m ==> s == 0
  {
    var key := Lower(username);
    if key in m then m[key].stage else 0
  }

  /** `advanceUserStage(username)`: below stage 2 the record of the
      lower-cased name moves one stage on, keeps its first-message time (or
      starts one now) and is touched now; at stage 2 nothing changes. No other
      record changes. */
  function Advanced(m: StateMap, username: string, now: int): (r: StateMap)
    ensures var key := Lower(username);
      (StageOf(m, username) < 2 ==>
         r.Keys == m.Keys + {key}
         && r[key] == UserRecord(StageOf(m, username) + 1,
                                 if key in m then m[key].firstMessageTime else now, now))
      && (StageOf(m, username) == 2 ==> r == m)
      && (forall k :: k in m && k != key ==> k in r && r[k] == m[k])
  {
    var normalizedUsername := Lower(username);
    LowerIdempotent(username);
    var current := StageOf(m, normalizedUsername);
    if current < 2 then
      var firstMessageTime := if normalizedUsername in m then m[normalizedUsername].firstMessageTime else now;
      m[normalizedUsername := UserRecord(current + 1, firstMessageTime, now)]
    else m
  }

  /** `registerFirstMessage(username)`: a new lower-cased name gets a stage 0
      record started now; a known one only has its last interaction time
      set to now. No other record changes. */
  function Registered(m: StateMap, username: string, now: int): (r: StateMap)
    ensures var key := Lower(username);
      r.Keys == m.Keys + {key}
      && (key !in m ==> r[key] == UserRecord(0, now, now))
      && (key in m ==> r[key] == m[key].(lastInteractionTime := now))
      && (forall k :: k in m && k != key ==> r[k] == m[k])
  {
    var normalizedUsername := Lower(username);
    if normalizedUsername !in m then m[normalizedUsername := UserRecord(0, now, now)]
    else m[normalizedUsername := m[normalizedUsername].(lastInteractionTime := now)]
  }

  /** A record is stale when more than `maxAgeMs` has passed since its last
      interaction. */
  predicate Stale(rec: UserRecord, now: int, maxAgeMs: int) {
    now - rec.lastInteractionTime > maxAgeMs
  }

  /** What `cleanupOldStates(maxAgeMs)` leaves: exactly the records that are
      not stale, unchanged. */
  function Evicted(m: StateMap, now: int, maxAgeMs: int): (r: StateMap)
    ensures r.Keys <= m.Keys
    ensures forall k :: k in r <==> k in m && !Stale(m[k], now, maxAgeMs)
    ensures forall k :: k in r ==> r[k] == m[k]
  {
    map k | k in m && !Stale(m[k], now, maxAgeMs) :: m[k]
  }

  /** Looking a name up lower-cases it, so the name and its lower-cased form
      find the same stage. */
  lemma StageCaseInsensitive(m: StateMap, username: string)
    ensures StageOf(m, Lower(username)) == StageOf(m, username)
  {
    LowerIdempotent(username);
  }

  /** Advancing moves the user's stage up by one, saturating at 2, and leaves
      every other user's stage alone. */
  lemma AdvanceStep(m: StateMap, username: string, now: int, other: string)
    ensures StageOf(Advanced(m, username, now), username) == if StageOf(m, username) < 2 then StageOf(m, username) + 1 else 2
    ensures Lower(other) != Lower(username) ==> StageOf(Advanced(m, username, now), other) == StageOf(m, other)
  {
  }

  /** Registering never changes any user's stage. */
  lemma RegisterKeepsStages(m: StateMap, username: string, now: int, other: string)
    ensures StageOf(Registered(m, username, now), other) == StageOf(m, other)
  {
  }

  /** Every key is a lower-cased name. */
  ghost predicate LowerKeys(m: StateMap) {
    forall k :: k in m ==> Lower(k) == k
  }

  /** Times of a record are in order and not in the future. */
  ghost predicate TimesOrdered(m: StateMap, now: int) {
    forall k :: k in m ==> m[k].firstMessageTime <= m[k].lastInteractionTime <= now
  }

  /** Both updates keep the keys lower-cased and, when the clock does not run
      backwards, keep every record's times in order. */
  lemma UpdatesKeepInvariants(m: StateMap, username: string, before: int, now: int)
    requires LowerKeys(m) && TimesOrdered(m, before) && before <= now
    ensures LowerKeys(Advanced(m, username, now)) && TimesOrdered(Advanced(m, username, now), now)
    ensures LowerKeys(Registered(m, username, now)) && TimesOrdered(Registered(m, username, now), now)
  {
    LowerIdempotent(username);
  }

  /** A sequence of `registerFirstMessage` / `advanceUserStage` calls. */
  datatype Event = Register(username: string, at: int) | Advance(username: string, at: int)

  function Replay(m: StateMap, events: seq<Event>): StateMap
    decreases |events|
  {
    if events == [] then m
    else
      var e := events[0];
      var next := match e
        case Register(u, t) => Registered(m, u, t)
        case Advance(u, t) => Advanced(m, u, t);
      Replay(next, events[1..])
  }

  /** Stages only move forward: along any sequence of registrations and
      advances, no user's stage goes down. */
  lemma {:induction false} ReplayMonotone(m: StateMap, events: seq<Event>, username: string)
    ensures StageOf(Replay(m, events), username) >= StageOf(m, username)
    decreases |events|
  {
    if events != [] {
      var e := events[0];
      var next := match e
        case Register(u, t) => Registered(m, u, t)
        case Advance(u, t) => Advanced(m, u, t);
      match e {
        case Register(u, t) => RegisterKeepsStages(m, u, t, username);
        case Advance(u, t) => AdvanceStep(m, u, t, username);
      }
      ReplayMonotone(next, events[1..], username);
    }
  }

  /** Cleaning up twice at the same moment removes nothing the second time. */
  lemma EvictIdempotent(m: StateMap, now: int, maxAgeMs: int)
    ensures Evicted(Evicted(m, now, maxAgeMs), now, maxAgeMs) == Evicted(m, now, maxAgeMs)
  {
  }

  /** A user who has just written survives a cleanup at the same moment with
      any non-negative age limit. */
  lemma JustRegisteredSurvives(m: StateMap, username: string, now: int, maxAgeMs: int)
    requires maxAgeMs >= 0
    ensures Lower(username) in Evicted(Registered(m, username, now), now, maxAgeMs)
  {
  }

  /** `UserStateManager`: owns the `userStates` map. */
  class UserStateManager {
    var userStates: StateMap

    constructor()
      ensures userStates == map[]
    {
      userStates := map[];
    }

    /** `getUserStage(username)`. */
    function GetUserStage(username: string): (s: Stage)
      reads this
      ensures s == StageOf(userStates, username)
    {
      var state := Lower(username);
      if state in userStates then userStates[state].stage else 0
    }

    /** `advanceUserStage(username)`. */
    method AdvanceUserStage(username: string, now: int)
      modifies this
      ensures userStates == Advanced(old(userStates), username, now)
    {
      var normalizedUsername := Lower(username);
      var current := GetUserStage(normalizedUsername);
      LowerIdempotent(username);
      if current < 2 {
        var newStage: Stage := current + 1;
        var firstMessageTime := if normalizedUsername in userStates then userStates[normalizedUsername].firstMessageTime else now;
        userStates := userStates[normalizedUsername := UserRecord(newStage, firstMessageTime, now)];
      }
    }

    /** `registerFirstMessage(username)`. */
    method RegisterFirstMessage(username: string, now: int)
      modifies this
      ensures userStates == Registered(old(userStates), username, now)
    {
      var normalizedUsername := Lower(username);
      if normalizedUsername !in userStates {
        userStates := userStates[normalizedUsername := UserRecord(0, now, now)];
      } else {
        var existingState := userStates[normalizedUsername];
        userStates := userStates[normalizedUsername := existingState.(lastInteractionTime := now)];
      }
    }

    /** `resetUserState(username)`: forgets the lower-cased name. */
    method ResetUserState(username: string)
      modifies this
      ensures userStates == old(userStates) - {Lower(username)}
    {
      userStates := userStates - {Lower(username)};
    }

    /** `resetAllStates()`. */
    method ResetAllStates()
      modifies this
      ensures userStates == map[]
    {
      userStates := map[];
    }

    /** `getUserState(username)`: the record of the lower-cased name, if any. */
    function GetUserState(username: string): (r: Option<UserRecord>)
      reads this
      ensures r.Some? <==> Lower(username) in userStates
      ensures r.Some? ==> r.value == userStates[Lower(username)] && r.value.stage == StageOf(userStates, username)
    {
      var key := Lower(username);
      if key in userStates then Some(userStates[key]) else None
    }

    /** `getTotalUsers()`: the number of records. */
    function GetTotalUsers(): (n: nat)
      reads this
      ensures n == |userStates.Keys|
    {
      |userStates|
    }

    /** `cleanupOldStates(maxAgeMs)`: deletes every stale record and returns
      how many it deleted. */
    method CleanupOldStates(now: int, maxAgeMs: int) returns (cleaned: nat)
      modifies this
      ensures userStates == Evicted(old(userStates), now, maxAgeMs)
      ensures cleaned == |old(userStates)| - |userStates|
    {
      ghost var original := userStates;
      cleaned := 0;
      var entries := userStates.Keys;
      while entries != {}
        invariant entries <= original.Keys
        invariant userStates.Keys <= original.Keys
        invariant forall k :: k in userStates ==> userStates[k] == original[k]
        invariant forall k :: k in original ==>
          (k in userStates <==> k in entries || !Stale(original[k], now, maxAgeMs))
        invariant cleaned + |userStates| == |original|
        decreases entries
      {
        var username :| username in entries;
        var state := userStates[username];
        if now - state.lastInteractionTime > maxAgeMs {
          assert |userStates.Keys - {username}| == |userStates.Keys| - 1;
          userStates := userStates - {username};
          cleaned := cleaned + 1;
        }
        entries := entries - {username};
      }
      assert userStates == Evicted(original, now, maxAgeMs);
    }
  }
}
