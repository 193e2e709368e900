/** The fixed-window limiter over a shared Redis: INCR, then EXPIRE on a window's first hit. */
module RateLimit {
  import opened Shared

  /** A Redis key's value, and when the key goes away, once EXPIRE has set that. */
  datatype Counter = Counter(count: nat, deadline: Option<real>)

  type Redis = map<string, Counter>

  /** What a replica sends. Another replica's commands may come between a hit's INCR and its EXPIRE. */
  datatype Command = Incr(key: string, at: real) | Expire(key: string, at: real)

  predicate Live(redis: Redis, key: string, now: real) {
    key in redis && (redis[key].deadline.Some? ==> now < redis[key].deadline.value)
  }

  function Sent(redis: Redis, command: Command, window: real): Redis {
    match command
    case Incr(key, at) =>
      redis[key := if Live(redis, key, at) then redis[key].(count := redis[key].count + 1) else Counter(1, None)]
    case Expire(key, at) =>
      if Live(redis, key, at) then redis[key := redis[key].(deadline := Some(at + window))] else redis
  }

  /** The key has no deadline or has not reached it. */
  predicate Open(redis: Redis, key: string, at: real) {
    key in redis && match redis[key].deadline case None => true case Some(deadline) => at < deadline
  }

  /**
   INCR adds one to an open key and starts any other at one without a deadline; EXPIRE gives an open key its deadline, a
   window from then, and leaves any other as it is. Neither touches another key.
   */
  lemma SentIs(redis: Redis, command: Command, window: real, other: string)
    ensures var redis', open := Sent(redis, command, window), Open(redis, command.key, command.at);
            (command.Incr? ==>
              command.key in redis' &&
              redis'[command.key].count == (if open then redis[command.key].count + 1 else 1) &&
              redis'[command.key].deadline == if open then redis[command.key].deadline else None) &&
            (command.Expire? && open ==>
              command.key in redis' && redis'[command.key].count == redis[command.key].count &&
              redis'[command.key].deadline == Some(command.at + window)) &&
            (command.Expire? && !open ==> redis' == redis) &&
            (other != command.key ==>
              (other in redis' <==> other in redis) && (other in redis ==> redis'[other] == redis[other]))
  {
  }

  // -------------------------------------------------------------- timed runs

  /** EXPIRE comes only from a hit that saw 1, so only while its key has no deadline yet. */
  predicate Enabled(redis: Redis, command: Command) {
    command.Expire? ==> command.key in redis && redis[command.key].deadline.None?
  }

  function After(commands: seq<Command>, window: real): Redis {
    if commands == [] then map[]
    else Sent(After(commands[..|commands| - 1], window), commands[|commands| - 1], window)
  }

  /** Time does not run backwards, and every command is one a replica may send. */
  predicate Timed(commands: seq<Command>, window: real) {
    commands != [] ==>
      var front, last := commands[..|commands| - 1], commands[|commands| - 1];
      Timed(front, window) && Enabled(After(front, window), last) &&
      forall i :: 0 <= i < |front| ==> front[i].at <= last.at
  }

  /** How many hits on `key` in `[from, to)` saw a count within the limit. */
  function Admitted(commands: seq<Command>, key: string, limit: nat, window: real, from: real, to: real): nat {
    if commands == [] then 0
    else
      var last := commands[|commands| - 1];
      Admitted(commands[..|commands| - 1], key, limit, window, from, to) +
      if last.Incr? && last.key == key && from <= last.at < to && After(commands, window)[key].count <= limit then 1
      else 0
  }

  /** When the key's present window saw its first hit. */
  function Born(commands: seq<Command>, key: string, window: real): real {
    if commands == [] then 0.0
    else
      var last := commands[|commands| - 1];
      if last.Incr? && last.key == key && After(commands, window)[key].count == 1 then last.at
      else Born(commands[..|commands| - 1], key, window)
  }

  function Least(a: int, b: int): int {
    if a <= b then a else b
  }

  predicate NoneLater(commands: seq<Command>, at: real) {
    forall i :: 0 <= i < |commands| ==> commands[i].at <= at
  }

  /** The count that hit `i` saw. */
  function CountSeen(commands: seq<Command>, window: real, i: nat): nat
    requires i < |commands| && commands[i].Incr?
  {
    Sent(After(commands[..i], window), commands[i], window)[commands[i].key].count
  }

  predicate LetThrough(commands: seq<Command>, key: string, limit: nat, window: real, i: nat) {
    i < |commands| && commands[i].Incr? && commands[i].key == key && CountSeen(commands, window, i) <= limit
  }

  /** A key without a deadline keeps none, and its count does not fall. */
  predicate OpenStays(before: Redis, after: Redis, key: string) {
    key in before && before[key].deadline.None? ==>
      key in after && after[key].deadline.None? && before[key].count <= after[key].count
  }

  lemma LogGrows(log: seq<Command>, command: Command, window: real, clock: real)
    requires Timed(log, window) && NoneLater(log, clock) && clock <= command.at && Enabled(After(log, window), command)
    ensures Timed(log + [command], window) && NoneLater(log + [command], command.at)
    ensures After(log + [command], window) == Sent(After(log, window), command, window)
  {
    assert (log + [command])[..|log|] == log;
  }

  lemma HitIsLogged(log: seq<Command>, hit: Command, after: seq<Command>, limit: nat, window: real)
    requires hit.Incr?
    ensures LetThrough(log + [hit] + after, hit.key, limit, window, |log|) <==>
            Sent(After(log, window), hit, window)[hit.key].count <= limit
  {
    assert (log + [hit] + after)[..|log|] == log;
  }

  // ---------------------------------------------------------------- the code

  /** The limiter and the Redis it shares with every replica. The log is what Redis has been sent, by whomever. */
  class RateLimitService {
    var redis: Redis
    var clock: real
    ghost var log: seq<Command>

    /** Redis holds what the log says, and the log is a possible one. */
    ghost predicate Logged(window: real)
      reads this
    {
      redis == After(log, window) && Timed(log, window) && NoneLater(log, clock)
    }

    constructor (window: real)
      ensures redis == map[] && log == [] && clock == 0.0 && Logged(window)
    {
      redis, clock, log := map[], 0.0, [];
    }

    /** INCR, which answers with the new count. */
    method Count(key: string, now: real, window: real) returns (count: nat)
      modifies this
      ensures redis == Sent(old(redis), Incr(key, now), window) && key in redis && count == redis[key].count
      ensures clock == now && log == old(log) + [Incr(key, now)]
    {
      if Live(redis, key, now) {
        count := redis[key].count + 1;
        redis := redis[key := redis[key].(count := count)];
      } else {
        count := 1;
        redis := redis[key := Counter(1, None)];
      }
      clock, log := now, log + [Incr(key, now)];
    }

    /** EXPIRE on a live key. */
    method StartWindow(key: string, now: real, window: real)
      modifies this
      ensures redis == Sent(old(redis), Expire(key, now), window)
      ensures clock == now && log == old(log) + [Expire(key, now)]
    {
      if Live(redis, key, now) {
        redis := redis[key := redis[key].(deadline := Some(now + window))];
      }
      clock, log := now, log + [Expire(key, now)];
    }

    /**
     What other replicas send before `until`: of the commands offered, those in time and possible just then. The EXPIRE
     for `mine` is not theirs to send.
     */
    method Interleave(others: seq<Command>, mine: string, until: real, window: real)
      returns (ghost sent: seq<Command>)
      requires Logged(window) && clock <= until
      modifies this
      ensures Logged(window) && clock <= until && log == old(log) + sent
      ensures OpenStays(old(redis), redis, mine)
    {
      hide Timed, After, NoneLater;
      sent := [];
      for i := 0 to |others|
        invariant Logged(window) && clock <= until && log == old(log) + sent
        invariant OpenStays(old(redis), redis, mine)
      {
        var command := others[i];
        if clock <= command.at <= until && Enabled(redis, command) && !(command.Expire? && command.key == mine) {
          LogGrows(log, command, window, clock);
          match command {
            case Incr(key, at) => var _ := Count(key, at, window);
            case Expire(key, at) => StartWindow(key, at, window);
          }
          sent := sent + [command];
        }
      }
    }

    /**
     Count one hit and say whether it is let through, while other replicas send commands between its INCR and its
     EXPIRE. A Redis error lets the hit through, and when it comes on EXPIRE, leaves a key that never goes away.
     */
    method Enforce(key: string, limit: nat, window: real, now: real, incrFails: bool, expireFails: bool,
                   others: seq<Command>, later: real)
      returns (admitted: bool, ghost between: seq<Command>)
      requires Logged(window) && clock <= now <= later
      modifies this
      ensures Logged(window) && clock <= later
      ensures incrFails ==> admitted && log == old(log) && redis == old(redis)
      ensures !incrFails ==>
                var count := Sent(old(redis), Incr(key, now), window)[key].count;
                log == old(log) + [Incr(key, now)] + between +
                       (if count == 1 && !expireFails then [Expire(key, later)] else []) &&
                (admitted <==> LetThrough(log, key, limit, window, |old(log)|) || (count == 1 && expireFails)) &&
                (count != 1 || expireFails ==>
                  between == [] && redis == Sent(old(redis), Incr(key, now), window) && clock == now)
    {
      between := [];
      if incrFails {
        return true, [];
      }
      ghost var before := log;
      WindowLasts(before, key, window);
      LogGrows(log, Incr(key, now), window, clock);
      var count := Count(key, now, window);
      HitIsLogged(before, Incr(key, now), [], limit, window);
      assert log + [] == log;
      if count == 1 {
        if expireFails {
          return true, [];
        }
        between := Interleave(others, key, later, window);
        LogGrows(log, Expire(key, later), window, clock);
        StartWindow(key, later, window);
        HitIsLogged(before, Incr(key, now), between + [Expire(key, later)], limit, window);
        assert before + [Incr(key, now)] + (between + [Expire(key, later)]) == log;
      }
      return count <= limit, between;
    }
  }

  /** Hits on one key whose every EXPIRE fails: the key never goes away, and past the limit a hit is turned away. */
  method LockOut(key: string, limit: nat, window: real, at: real) returns (service: RateLimitService, next: bool)
    requires 1 <= limit && 0.0 <= at
    ensures fresh(service) && service.Logged(window)
    ensures service.redis == map[key := Counter(limit + 1, None)] && !next
  {
    service := new RateLimitService(window);
    for i := 0 to limit
      invariant fresh(service) && service.Logged(window) && service.clock <= at
      invariant service.redis == if i == 0 then map[] else map[key := Counter(i, None)]
    {
      var admitted, _ := service.Enforce(key, limit, window, at, false, true, [], at);
    }
    ghost var n := |service.log|;
    ghost var before := service.log;
    ghost var between;
    next, between := service.Enforce(key, limit, window, at, false, true, [], at);
    HitIsLogged(before, Incr(key, at), [], limit, window);
    assert before + [Incr(key, at)] + [] == service.log;
  }

  // ----------------------------------------------------------------- bounds

  /** The hits on `key` in `[from, to)` that were let through. */
  function HitsIn(commands: seq<Command>, key: string, limit: nat, window: real, from: real, to: real): set<nat> {
    set i | 0 <= i < |commands| && from <= commands[i].at < to && LetThrough(commands, key, limit, window, i)
  }

  /** They are what `Admitted` counts. */
  lemma {:induction false} AdmittedCountsHits(
      commands: seq<Command>, key: string, limit: nat, window: real, from: real, to: real)
    ensures Admitted(commands, key, limit, window, from, to) == |HitsIn(commands, key, limit, window, from, to)|
  {
    hide LetThrough, After, Sent;
    if commands == [] {
      assert HitsIn(commands, key, limit, window, from, to) == {};
    } else {
      var n := |commands| - 1;
      var front := commands[..n];
      AdmittedCountsHits(front, key, limit, window, from, to);
      forall i | 0 <= i < n
        ensures LetThrough(front, key, limit, window, i) <==> LetThrough(commands, key, limit, window, i)
      {
        SameSeen(commands, n, key, limit, window, i);
      }
      LastSeen(commands, key, limit, window);
      var last := if from <= commands[n].at < to && LetThrough(commands, key, limit, window, n) then {n} else {};
      assert HitsIn(commands, key, limit, window, from, to) == HitsIn(front, key, limit, window, from, to) + last;
    }
  }

  lemma SameSeen(commands: seq<Command>, n: nat, key: string, limit: nat, window: real, i: nat)
    requires i < n <= |commands|
    ensures LetThrough(commands[..n], key, limit, window, i) <==> LetThrough(commands, key, limit, window, i)
  {
    assert commands[..n][..i] == commands[..i];
  }

  lemma LastSeen(commands: seq<Command>, key: string, limit: nat, window: real)
    requires commands != []
    ensures var last := commands[|commands| - 1];
            LetThrough(commands, key, limit, window, |commands| - 1) <==>
            last.Incr? && last.key == key && After(commands, window)[key].count <= limit
  {
  }

  /** A window lasts from its first hit at least as long as the window's length. */
  lemma {:induction false} WindowLasts(commands: seq<Command>, key: string, window: real)
    requires Timed(commands, window)
    ensures var redis := After(commands, window);
            key in redis ==>
              1 <= redis[key].count &&
              (exists i :: 0 <= i < |commands| && commands[i].at == Born(commands, key, window)) &&
              (redis[key].deadline.Some? ==> Born(commands, key, window) + window <= redis[key].deadline.value)
  {
    if commands != [] {
      var n := |commands| - 1;
      var front, last := commands[..n], commands[n];
      WindowLasts(front, key, window);
      if key in After(front, window) {
        var i :| 0 <= i < n && front[i].at == Born(front, key, window);
        assert commands[i] == front[i];
      }
      assert commands[n].at == last.at;
    }
  }

  /** What an interval as long as the window has admitted so far, by when the present window was born. */
  predicate Bounded(commands: seq<Command>, key: string, limit: nat, window: real, from: real) {
    var redis, admitted := After(commands, window), Admitted(commands, key, limit, window, from, from + window);
    var born := Born(commands, key, window);
    if key !in redis then admitted == 0
    else if born < from then admitted <= Least(redis[key].count, limit) - 1
    else if born < from + window then admitted <= limit - 1 + Least(redis[key].count, limit)
    else admitted <= 2 * limit - 1
  }

  lemma {:induction false} NoneOutside(
      commands: seq<Command>, key: string, limit: nat, window: real, from: real, to: real)
    requires forall i :: 0 <= i < |commands| ==> !(from <= commands[i].at < to)
    ensures Admitted(commands, key, limit, window, from, to) == 0
  {
    if commands != [] {
      NoneOutside(commands[..|commands| - 1], key, limit, window, from, to);
    }
  }

  lemma {:induction false} RunBounded(commands: seq<Command>, key: string, limit: nat, window: real, from: real)
    requires Timed(commands, window) && 1 <= limit
    ensures Bounded(commands, key, limit, window, from)
  {
    if commands != [] {
      var n := |commands| - 1;
      var front, last := commands[..n], commands[n];
      RunBounded(front, key, limit, window, from);
      WindowLasts(front, key, window);
      if last.at < from {
        NoneOutside(front, key, limit, window, from, from + window);
      }
    }
  }

  /**
   However the hits arrive and the replicas interleave, no interval as long as the window admits more than
   `2 * limit - 1` hits on a key.
   */
  lemma BurstBound(commands: seq<Command>, key: string, limit: nat, window: real, from: real)
    requires Timed(commands, window) && 1 <= limit
    ensures Admitted(commands, key, limit, window, from, from + window) <= 2 * limit - 1
  {
    RunBounded(commands, key, limit, window, from);
  }

  /** The hits of the present window: the first `limit` are let through and the rest are not. */
  lemma {:induction false} WindowAdmits(commands: seq<Command>, key: string, limit: nat, window: real, to: real)
    requires Timed(commands, window) && 0.0 < window && key in After(commands, window)
    requires forall i :: 0 <= i < |commands| ==> commands[i].at < to
    ensures Admitted(commands, key, limit, window, Born(commands, key, window), to) ==
            Least(After(commands, window)[key].count, limit)
  {
    var n := |commands| - 1;
    var front, last := commands[..n], commands[n];
    var redis, born := After(front, window), Born(commands, key, window);
    if key in redis {
      WindowAdmits(front, key, limit, window, to);
      WindowLasts(front, key, window);
    }
    if last.Incr? && last.key == key && !Live(redis, key, last.at) {
      BeforeDeadline(front, key, window);
      NoneYet(front, key, limit, window, born, to);
    }
  }

  /** Every hit so far came before the key's deadline. */
  lemma {:induction false} BeforeDeadline(commands: seq<Command>, key: string, window: real)
    requires Timed(commands, window) && 0.0 < window
    ensures var redis := After(commands, window);
            (key !in redis ==> forall i :: 0 <= i < |commands| && commands[i].Incr? ==> commands[i].key != key) &&
            (key in redis && redis[key].deadline.Some? ==>
              forall i :: 0 <= i < |commands| && commands[i].Incr? && commands[i].key == key ==>
                commands[i].at < redis[key].deadline.value)
  {
    if commands != [] {
      var n := |commands| - 1;
      BeforeDeadline(commands[..n], key, window);
      assert forall i :: 0 <= i < n ==> commands[..n][i] == commands[i];
    }
  }

  lemma {:induction false} NoneYet(commands: seq<Command>, key: string, limit: nat, window: real, from: real, to: real)
    requires forall i :: 0 <= i < |commands| && commands[i].Incr? && commands[i].key == key ==> commands[i].at < from
    ensures Admitted(commands, key, limit, window, from, to) == 0
  {
    if commands != [] {
      NoneYet(commands[..|commands| - 1], key, limit, window, from, to);
    }
  }

  // ---------------------------------------------------------- the bound is met

  function Burst(key: string, at: real, n: nat): (commands: seq<Command>)
    ensures |commands| == n && forall i :: 0 <= i < n ==> commands[i] == Incr(key, at)
  {
    seq(n, i => Incr(key, at))
  }

  /** One more command, not before the others. */
  lemma OneMore(commands: seq<Command>, more: Command, key: string, limit: nat, window: real, from: real, to: real)
    requires Timed(commands, window) && NoneLater(commands, more.at) && Enabled(After(commands, window), more)
    ensures var all, redis := commands + [more], Sent(After(commands, window), more, window);
            Timed(all, window) && NoneLater(all, more.at) && After(all, window) == redis &&
            Admitted(all, key, limit, window, from, to) == Admitted(commands, key, limit, window, from, to) +
              if more.Incr? && more.key == key && from <= more.at < to && redis[key].count <= limit then 1 else 0
  {
    assert (commands + [more])[..|commands|] == commands;
  }

  /** Hits that come while the window is open and the limit is not reached are all let through. */
  lemma {:induction false} BurstAdmitted(
      commands: seq<Command>, key: string, at: real, n: nat, limit: nat, window: real, from: real, to: real)
    requires Timed(commands, window) && NoneLater(commands, at) && from <= at < to
    requires var redis := After(commands, window); Live(redis, key, at) && redis[key].count + n <= limit
    ensures var all, redis := commands + Burst(key, at, n), After(commands, window);
            Timed(all, window) && NoneLater(all, at) && Live(After(all, window), key, at) &&
            After(all, window)[key] == redis[key].(count := redis[key].count + n) &&
            Admitted(all, key, limit, window, from, to) == Admitted(commands, key, limit, window, from, to) + n
  {
    hide Timed, NoneLater, Admitted, After;
    var all := commands + Burst(key, at, n);
    if n == 0 {
      assert all == commands;
    } else {
      BurstAdmitted(commands, key, at, n - 1, limit, window, from, to);
      OneMore(commands + Burst(key, at, n - 1), Incr(key, at), key, limit, window, from, to);
      assert all == commands + Burst(key, at, n - 1) + [Incr(key, at)];
    }
  }

  /** The bound is sharp: for every limit and window some run admits `2 * limit - 1` hits inside one window's length. */
  lemma BoundIsMet(key: string, limit: nat, window: real) returns (commands: seq<Command>, from: real)
    requires 1 <= limit && 0.0 < window
    ensures Timed(commands, window)
    ensures Admitted(commands, key, limit, window, from, from + window) == 2 * limit - 1
  {
    hide Timed, NoneLater, Admitted, After;
    from := window / 2.0;
    var to := from + window;
    commands := [];
    NothingSent(key, limit, window, from, to);
    commands := WindowOpened(commands, key, 0.0, limit, window, from, to);
    StillInTime(commands, 0.0, from);
    BurstAdmitted(commands, key, from, limit - 1, limit, window, from, to);
    commands := commands + Burst(key, from, limit - 1);
    StillInTime(commands, from, window);
    commands := WindowOpened(commands, key, window, limit, window, from, to);
    BurstAdmitted(commands, key, window, limit - 1, limit, window, from, to);
    commands := commands + Burst(key, window, limit - 1);
  }

  lemma NothingSent(key: string, limit: nat, window: real, from: real, to: real)
    ensures Timed([], window) && NoneLater([], 0.0) && After([], window) == map[]
    ensures Admitted([], key, limit, window, from, to) == 0
  {
  }

  lemma StillInTime(commands: seq<Command>, at: real, later: real)
    requires NoneLater(commands, at) && at <= later
    ensures NoneLater(commands, later)
  {
  }

  /** A hit on a key that is gone starts its window anew. */
  lemma WindowOpened(commands: seq<Command>, key: string, at: real, limit: nat, window: real, from: real, to: real)
    returns (all: seq<Command>)
    requires Timed(commands, window) && NoneLater(commands, at) && !Live(After(commands, window), key, at)
    requires 1 <= limit && 0.0 < window
    ensures Timed(all, window) && NoneLater(all, at) && Live(After(all, window), key, at)
    ensures After(all, window)[key] == Counter(1, Some(at + window))
    ensures Admitted(all, key, limit, window, from, to) ==
            Admitted(commands, key, limit, window, from, to) + if from <= at < to then 1 else 0
  {
    hide Timed, NoneLater, Admitted, After;
    OneMore(commands, Incr(key, at), key, limit, window, from, to);
    OneMore(commands + [Incr(key, at)], Expire(key, at), key, limit, window, from, to);
    all := commands + [Incr(key, at)] + [Expire(key, at)];
  }

  /** A key whose EXPIRE is lost stays full: once `limit` hits are counted, no later hit is ever let through. */
  lemma {:induction false} LostExpireLocksOut(
      commands: seq<Command>, later: seq<Command>, key: string, limit: nat, window: real, from: real, to: real)
    requires var redis := After(commands, window);
             key in redis && redis[key].deadline.None? && limit <= redis[key].count
    requires forall i :: 0 <= i < |later| && later[i].Expire? ==> later[i].key != key
    ensures Admitted(commands + later, key, limit, window, from, to) == Admitted(commands, key, limit, window, from, to)
    ensures var redis := After(commands + later, window);
            key in redis && redis[key].deadline.None? && limit <= redis[key].count
  {
    var all := commands + later;
    if later == [] {
      assert all == commands;
    } else {
      LostExpireLocksOut(commands, later[..|later| - 1], key, limit, window, from, to);
      assert all[..|all| - 1] == commands + later[..|later| - 1];
    }
  }

  /** Some hit yet to come, with no EXPIRE for its key in between, is let through. */
  ghost predicate HopeFor(commands: seq<Command>, key: string, limit: nat, window: real) {
    exists later :: HopeIn(commands, later, key, limit, window)
  }

  predicate HopeIn(commands: seq<Command>, later: seq<Command>, key: string, limit: nat, window: real) {
    later != [] && Timed(commands + later, window) &&
    (forall i :: 0 <= i < |later| && later[i].Expire? ==> later[i].key != key) &&
    LetThrough(commands + later, key, limit, window, |commands + later| - 1)
  }

  /** Without a further EXPIRE, a key is open again some time exactly when it is gone, will go, or has room left. */
  lemma LockedOutIff(commands: seq<Command>, key: string, limit: nat, window: real)
    requires Timed(commands, window) && 1 <= limit
    ensures var redis := After(commands, window);
            HopeFor(commands, key, limit, window) <==>
            key !in redis || redis[key].deadline.Some? || redis[key].count < limit
  {
    var redis := After(commands, window);
    if key !in redis || redis[key].deadline.Some? || redis[key].count < limit {
      var gone := if key in redis && redis[key].deadline.Some? then redis[key].deadline.value else 0.0;
      var clock := LatestOf(commands, gone);
      LogGrows(commands, Incr(key, clock), window, clock);
      HitIsLogged(commands, Incr(key, clock), [], limit, window);
      assert commands + [Incr(key, clock)] + [] == commands + [Incr(key, clock)];
      assert HopeIn(commands, [Incr(key, clock)], key, limit, window);
    } else {
      forall later
        ensures !HopeIn(commands, later, key, limit, window)
      {
        NoHope(commands, later, key, limit, window);
      }
    }
  }

  lemma NoHope(commands: seq<Command>, later: seq<Command>, key: string, limit: nat, window: real)
    requires var redis := After(commands, window);
             key in redis && redis[key].deadline.None? && limit <= redis[key].count
    ensures !HopeIn(commands, later, key, limit, window)
  {
    if later != [] && forall i :: 0 <= i < |later| && later[i].Expire? ==> later[i].key != key {
      var n := |later| - 1;
      LostExpireLocksOut(commands, later[..n], key, limit, window, 0.0, 0.0);
      assert (commands + later)[..|commands + later| - 1] == commands + later[..n];
    }
  }

  /** A time at or after `least` that no command is later than. */
  lemma {:induction false} LatestOf(commands: seq<Command>, least: real) returns (latest: real)
    ensures least <= latest && NoneLater(commands, latest)
  {
    if commands == [] {
      latest := least;
    } else {
      latest := LatestOf(commands[1..], least);
      assert forall i :: 0 < i < |commands| ==> commands[i] == commands[1..][i - 1];
      if latest < commands[0].at {
        latest := commands[0].at;
      }
    }
  }
}
