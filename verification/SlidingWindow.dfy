/** The Redis sliding-window rate limiter: one atomic transaction per hit on a shared sorted set, a separate rollback of
    refused hits that may come late or never, and expiry of the key. A client reads the clock before it sends the
    transaction, so transactions may arrive out of the order of their readings. Times are milliseconds. */
module SlidingWindow {
  import opened Sets

  /** Members are unique per hit: a timestamp and a high-resolution counter. */
  type Member = nat

  datatype Config = Config(limit: int, windowSeconds: int) {
    function Window(): int {
      (if windowSeconds > 1 then windowSeconds else 1) * 1000
    }
  }

  // ---------------------------------------------------------------- the key in Redis

  function WithoutRange(scores: map<Member, int>, low: int, high: int): map<Member, int> {
    map m | m in scores && !(low <= scores[m] <= high) :: scores[m]
  }

  /** The sorted set after the transaction of a hit, before the expiry is set. */
  function AfterHit(cfg: Config, scores: map<Member, int>, now: int, member: Member): map<Member, int> {
    WithoutRange(scores, 0, now - cfg.Window())[member := now]
  }

  /** EXPIRE with a time to live that is not positive deletes the key. */
  function AfterExpire(cfg: Config, scores: map<Member, int>): map<Member, int> {
    if cfg.windowSeconds <= 0 then map[] else scores
  }

  class RedisKey {
    var scores: map<Member, int>
    var deadline: int

    constructor ()
      ensures scores == map[] && deadline == 0
    {
      scores, deadline := map[], 0;
    }

    method ZRemRangeByScore(low: int, high: int)
      modifies this`scores
      ensures scores == WithoutRange(old(scores), low, high)
    {
      scores := WithoutRange(scores, low, high);
    }

    method ZAdd(member: Member, score: int)
      modifies this`scores
      ensures scores == old(scores)[member := score]
    {
      scores := scores[member := score];
    }

    method ZCard() returns (n: nat)
      ensures n == |scores|
    {
      n := |scores|;
    }

    method ZRem(member: Member)
      modifies this`scores
      ensures scores == old(scores) - {member}
    {
      scores := scores - {member};
    }

    method Expire(now: int, seconds: int)
      modifies this
      ensures deadline == now + seconds * 1000
      ensures scores == if seconds <= 0 then map[] else old(scores)
    {
      deadline := now + seconds * 1000;
      if seconds <= 0 {
        scores := map[];
      }
    }

    /** The transaction of one hit, run by Redis at time `at` with a clock reading of the client, and the verdict drawn
        from it. */
    method Hit(cfg: Config, at: int, now: int, member: Member) returns (allowed: bool, remaining: int, retryAfter: int)
      modifies this
      ensures scores == AfterExpire(cfg, AfterHit(cfg, old(scores), now, member))
      ensures deadline == at + cfg.windowSeconds * 1000
      ensures allowed == (|AfterHit(cfg, old(scores), now, member)| <= cfg.limit)
      ensures allowed ==> remaining == cfg.limit - |AfterHit(cfg, old(scores), now, member)| && retryAfter == 0
      ensures !allowed ==> remaining == 0 && retryAfter == cfg.windowSeconds
    {
      ZRemRangeByScore(0, now - cfg.Window());
      ZAdd(member, now);
      var used := ZCard();
      Expire(at, cfg.windowSeconds);
      if used > cfg.limit {
        return false, 0, cfg.windowSeconds;
      }
      remaining := if 0 < cfg.limit - used then cfg.limit - used else 0;
      return true, remaining, 0;
    }

    /** The whole call: it lets the hit pass when Redis does not answer, and takes a refused hit back, which may fail
        without the caller noticing. */
    method SlidingWindowHit(cfg: Config, at: int, now: int, member: Member, answers: bool, rollbackArrives: bool)
      returns (allowed: bool, remaining: int, retryAfter: int)
      modifies this
      ensures !answers ==> allowed && remaining == cfg.limit && retryAfter == 0
      ensures !answers ==> scores == old(scores) && deadline == old(deadline)
      ensures answers ==>
        var counted := AfterHit(cfg, old(scores), now, member);
        var kept := AfterExpire(cfg, counted);
        allowed == (|counted| <= cfg.limit) && deadline == at + cfg.windowSeconds * 1000 &&
        scores == (if allowed || !rollbackArrives then kept else kept - {member}) &&
        remaining == (if allowed then cfg.limit - |counted| else 0) &&
        retryAfter == if allowed then 0 else cfg.windowSeconds
    {
      if !answers {
        return true, cfg.limit, 0;
      }
      allowed, remaining, retryAfter := Hit(cfg, at, now, member);
      if !allowed && rollbackArrives {
        ZRem(member);
      }
    }
  }

  // ---------------------------------------------------------------- runs

  /** The clock reading of a hit, and what it was told. */
  datatype Verdict = Verdict(reading: int, allowed: bool)

  type Log = map<Member, Verdict>

  /** The key together with everything that has happened to it; clock is the time of the last event at Redis. */
  datatype State = State(scores: map<Member, int>, deadline: int, clock: int,
                         log: Log, rolledBack: set<Member>)

  const START := State(map[], 0, 0, map[], {})

  /** Hits come from any number of clients, each transaction at some time after its clock reading; a rollback is sent
      for a refused hit at any later moment; Redis drops the key at some moment after its deadline. */
  datatype Event = HitAt(at: int, now: int, member: Member) | Rollback(member: Member) | KeyExpires(at: int)

  /** No transaction reaches Redis more than `lag` after its reading; nothing else is said about their order. */
  predicate Enabled(lag: nat, s: State, e: Event) {
    match e
    case HitAt(at, now, member) => s.clock <= at && 0 <= now <= at <= now + lag && member !in s.log
    case Rollback(member) => member in s.log && !s.log[member].allowed
    case KeyExpires(at) => s.clock <= at && s.deadline <= at
  }

  function Step(cfg: Config, s: State, e: Event): State {
    match e
    case HitAt(at, now, member) =>
      var scores := AfterHit(cfg, s.scores, now, member);
      State(AfterExpire(cfg, scores), at + cfg.windowSeconds * 1000, at,
            s.log[member := Verdict(now, |scores| <= cfg.limit)], s.rolledBack)
    case Rollback(member) => s.(scores := s.scores - {member}, rolledBack := s.rolledBack + {member})
    case KeyExpires(at) => s.(scores := map[], clock := at)
  }

  function After(cfg: Config, events: seq<Event>): State {
    if events == [] then START
    else Step(cfg, After(cfg, events[..|events| - 1]), events[|events| - 1])
  }

  ghost predicate IsRun(cfg: Config, lag: nat, events: seq<Event>) {
    events == [] ||
    (var n := |events| - 1; IsRun(cfg, lag, events[..n]) && Enabled(lag, After(cfg, events[..n]), events[n]))
  }

  /** A run that ends in this state. */
  ghost predicate Reaches(cfg: Config, lag: nat, events: seq<Event>, s: State) {
    IsRun(cfg, lag, events) && After(cfg, events) == s
  }

  /** The allowed hits with a reading in (low, high]. */
  function AllowedIn(log: Log, low: int, high: int): set<Member> {
    set m | m in log && log[m].allowed && low < log[m].reading <= high
  }

  /** The refused hits with a reading in (low, high] whose rollback has not arrived. */
  function PendingIn(log: Log, rolledBack: set<Member>, low: int, high: int): set<Member> {
    set m | m in log && !log[m].allowed && m !in rolledBack && low < log[m].reading <= high
  }

  /** How many they are: what the counter is meant to count. */
  function Filling(s: State, low: int, high: int): nat {
    |AllowedIn(s.log, low, high)| + |PendingIn(s.log, s.rolledBack, low, high)|
  }

  // ---------------------------------------------------------------- what every run keeps

  ghost predicate Inv(cfg: Config, s: State) {
    s.clock >= 0 &&
    (forall m :: m in s.scores ==> m in s.log && m !in s.rolledBack && s.scores[m] == s.log[m].reading) &&
    (forall m :: m in s.log ==> 0 <= s.log[m].reading <= s.clock && s.log[m].reading + cfg.Window() <= s.deadline) &&
    (forall m :: m in s.log && m !in s.rolledBack && s.log[m].reading > s.clock - cfg.Window() ==> m in s.scores) &&
    (forall m :: m in s.rolledBack ==> m in s.log && !s.log[m].allowed)
  }

  lemma {:induction false} HitKeepsInv(cfg: Config, lag: nat, s: State, at: int, now: int, member: Member)
    requires cfg.windowSeconds >= 1 && Inv(cfg, s) && Enabled(lag, s, HitAt(at, now, member))
    ensures Inv(cfg, Step(cfg, s, HitAt(at, now, member)))
  {
  }

  lemma {:induction false} StepKeepsInv(cfg: Config, lag: nat, s: State, e: Event)
    requires cfg.windowSeconds >= 1 && Inv(cfg, s) && Enabled(lag, s, e)
    ensures Inv(cfg, Step(cfg, s, e))
  {
    if e.HitAt? {
      HitKeepsInv(cfg, lag, s, e.at, e.now, e.member);
    }
  }

  lemma {:induction false} RunKeepsInv(cfg: Config, lag: nat, events: seq<Event>)
    requires cfg.windowSeconds >= 1 && IsRun(cfg, lag, events)
    ensures Inv(cfg, After(cfg, events))
  {
    if events != [] {
      var n := |events| - 1;
      RunKeepsInv(cfg, lag, events[..n]);
      StepKeepsInv(cfg, lag, After(cfg, events[..n]), events[n]);
    }
  }

  lemma {:induction false} ReachesInv(cfg: Config, lag: nat, events: seq<Event>, s: State)
    requires cfg.windowSeconds >= 1 && Reaches(cfg, lag, events, s)
    ensures Inv(cfg, s)
  {
    RunKeepsInv(cfg, lag, events);
  }

  lemma {:induction false} SizeOfBoth(a: set<Member>, b: set<Member>)
    requires a !! b
    ensures |a + b| == |a| + |b|
  {
  }

  /** What a hit finds after trimming: at least the hits of the window that ends when Redis runs it. */
  lemma {:induction false} LeastFound(cfg: Config, lag: nat, s: State, at: int, now: int, member: Member)
    requires Inv(cfg, s) && Enabled(lag, s, HitAt(at, now, member))
    ensures Filling(s, at - cfg.Window(), at) <= |WithoutRange(s.scores, 0, now - cfg.Window()).Keys|
  {
    var a, b := AllowedIn(s.log, at - cfg.Window(), at), PendingIn(s.log, s.rolledBack, at - cfg.Window(), at);
    assert a + b <= WithoutRange(s.scores, 0, now - cfg.Window()).Keys;
    SubsetSize(a + b, WithoutRange(s.scores, 0, now - cfg.Window()).Keys);
    SizeOfBoth(a, b);
  }

  /** And at most those of the window that begins with its reading. */
  lemma {:induction false} MostFound(cfg: Config, lag: nat, s: State, at: int, now: int, member: Member)
    requires Inv(cfg, s) && Enabled(lag, s, HitAt(at, now, member))
    ensures |WithoutRange(s.scores, 0, now - cfg.Window()).Keys| <= Filling(s, now - cfg.Window(), at)
  {
    var a, b := AllowedIn(s.log, now - cfg.Window(), at), PendingIn(s.log, s.rolledBack, now - cfg.Window(), at);
    assert WithoutRange(s.scores, 0, now - cfg.Window()).Keys <= a + b;
    SubsetSize(WithoutRange(s.scores, 0, now - cfg.Window()).Keys, a + b);
    SizeOfBoth(a, b);
  }

  lemma {:induction false} KeysAfterInsert(scores: map<Member, int>, member: Member, now: int)
    requires member !in scores
    ensures |scores[member := now]| == |scores.Keys| + 1
  {
    assert scores[member := now].Keys == scores.Keys + {member};
    assert |scores[member := now]| == |scores[member := now].Keys|;
  }

  lemma {:induction false} HitCount(cfg: Config, lag: nat, s: State, at: int, now: int, member: Member)
    requires Inv(cfg, s) && Enabled(lag, s, HitAt(at, now, member))
    ensures var count := |AfterHit(cfg, s.scores, now, member)|;
      Filling(s, at - cfg.Window(), at) < count <= Filling(s, now - cfg.Window(), at) + 1
  {
    KeysAfterInsert(WithoutRange(s.scores, 0, now - cfg.Window()), member, now);
    LeastFound(cfg, lag, s, at, now, member);
    MostFound(cfg, lag, s, at, now, member);
  }

  /** Is the hit told that it is refused? */
  predicate Refused(cfg: Config, s: State, now: int, member: Member) {
    |AfterHit(cfg, s.scores, now, member)| > cfg.limit
  }

  lemma {:induction false} Logged(cfg: Config, s: State, at: int, now: int, member: Member)
    ensures Step(cfg, s, HitAt(at, now, member)).log == s.log[member := Verdict(now, !Refused(cfg, s, now, member))]
  {
  }

  lemma {:induction false} RefusedByCount(cfg: Config, lag: nat, s: State, at: int, now: int, member: Member)
    requires Inv(cfg, s) && Enabled(lag, s, HitAt(at, now, member))
    ensures Filling(s, at - cfg.Window(), at) >= cfg.limit ==> Refused(cfg, s, now, member)
    ensures Refused(cfg, s, now, member) ==> Filling(s, now - cfg.Window(), at) >= cfg.limit
  {
    HitCount(cfg, lag, s, at, now, member);
  }

  /** When a hit is refused, whatever the interleaving: if the allowed hits and the refused ones still to be rolled
      back fill the limit of the window that ends when Redis runs it; and only if they fill it together with those of
      the time its transaction took to arrive. For a hit that Redis runs at its reading the two are one condition. */
  lemma {:induction false} RefusedExactlyWhen(
      cfg: Config, lag: nat, events: seq<Event>, s: State, at: int, now: int, member: Member)
    requires cfg.windowSeconds >= 1 && Reaches(cfg, lag, events, s) && Enabled(lag, s, HitAt(at, now, member))
    ensures Filling(s, at - cfg.Window(), at) >= cfg.limit ==> Refused(cfg, s, now, member)
    ensures Refused(cfg, s, now, member) ==> Filling(s, now - cfg.Window(), at) >= cfg.limit
    ensures at == now ==> (Refused(cfg, s, now, member) <==> Filling(s, now - cfg.Window(), now) >= cfg.limit)
  {
    ReachesInv(cfg, lag, events, s);
    RefusedByCount(cfg, lag, s, at, now, member);
  }

  function AtMost(cfg: Config): nat {
    if cfg.limit > 0 then cfg.limit else 0
  }

  predicate FitsAt(cfg: Config, shorter: nat, log: Log, t: int) {
    |AllowedIn(log, t - cfg.Window() + shorter, t)| <= AtMost(cfg)
  }

  /** No window that is this much shorter than the set one holds more than the limit of allowed hits. */
  ghost predicate Safe(cfg: Config, shorter: nat, log: Log) {
    forall t: int :: FitsAt(cfg, shorter, log, t)
  }

  lemma {:induction false} GrowsByOne(log: Log, member: Member, v: Verdict, low: int, high: int)
    ensures |AllowedIn(log[member := v], low, high)| <= |AllowedIn(log, low, high)| + 1
  {
    var before, after := AllowedIn(log, low, high), AllowedIn(log[member := v], low, high);
    assert after <= before + {member};
    SubsetSize(after, before + {member});
  }

  lemma {:induction false} Unchanged(log: Log, member: Member, v: Verdict, low: int, high: int)
    requires member !in log && !(v.allowed && low < v.reading <= high)
    ensures |AllowedIn(log[member := v], low, high)| == |AllowedIn(log, low, high)|
  {
    assert AllowedIn(log[member := v], low, high) == AllowedIn(log, low, high);
  }

  lemma {:induction false} AllowedWider(log: Log, low: int, high: int, lower: int, higher: int)
    requires lower <= low && forall m :: m in log && log[m].reading <= high ==> log[m].reading <= higher
    ensures |AllowedIn(log, low, high)| <= |AllowedIn(log, lower, higher)|
  {
    assert AllowedIn(log, low, high) <= AllowedIn(log, lower, higher);
    SubsetSize(AllowedIn(log, low, high), AllowedIn(log, lower, higher));
  }

  /** An allowed hit fits every shortened window around it. */
  lemma {:induction false} HitFits(cfg: Config, lag: nat, s: State, at: int, now: int, member: Member, t: int)
    requires Inv(cfg, s) && Enabled(lag, s, HitAt(at, now, member)) && !Refused(cfg, s, now, member)
    requires t - cfg.Window() + lag < now <= t
    ensures |AllowedIn(s.log, t - cfg.Window() + lag, t)| + 1 <= AtMost(cfg)
  {
    HitCount(cfg, lag, s, at, now, member);
    AllowedWider(s.log, t - cfg.Window() + lag, t, at - cfg.Window(), at);
  }

  lemma {:induction false} FitsStill(cfg: Config, lag: nat, log: Log, member: Member, v: Verdict, t: int)
    requires member !in log && FitsAt(cfg, lag, log, t)
    requires v.allowed && t - cfg.Window() + lag < v.reading <= t ==>
      |AllowedIn(log, t - cfg.Window() + lag, t)| + 1 <= AtMost(cfg)
    ensures FitsAt(cfg, lag, log[member := v], t)
  {
    if v.allowed && t - cfg.Window() + lag < v.reading <= t {
      GrowsByOne(log, member, v, t - cfg.Window() + lag, t);
    } else {
      Unchanged(log, member, v, t - cfg.Window() + lag, t);
    }
  }

  lemma {:induction false} HitKeepsSafe(cfg: Config, lag: nat, s: State, at: int, now: int, member: Member, log: Log)
    requires Inv(cfg, s) && Enabled(lag, s, HitAt(at, now, member)) && Safe(cfg, lag, s.log)
    requires log == s.log[member := Verdict(now, !Refused(cfg, s, now, member))]
    ensures Safe(cfg, lag, log)
  {
    forall t: int ensures FitsAt(cfg, lag, log, t) {
      assert FitsAt(cfg, lag, s.log, t);
      if !Refused(cfg, s, now, member) && t - cfg.Window() + lag < now <= t {
        HitFits(cfg, lag, s, at, now, member, t);
      }
      FitsStill(cfg, lag, s.log, member, Verdict(now, !Refused(cfg, s, now, member)), t);
    }
  }

  lemma {:induction false} NothingAllowedYet(cfg: Config, shorter: nat)
    ensures Safe(cfg, shorter, map[])
  {
    forall t: int ensures FitsAt(cfg, shorter, map[], t) {
      assert AllowedIn(map[], t - cfg.Window() + shorter, t) == {};
    }
  }

  /** Whatever the order in which transactions arrive: no window shorter than the set one by their greatest lag ever
      holds more than the limit of allowed hits - for hits from any number of clients, with late, repeated or missing
      rollbacks and with expiry of the key. Without lag these are the windows of the setting. */
  lemma {:induction false} WindowSafety(cfg: Config, lag: nat, events: seq<Event>)
    requires cfg.windowSeconds >= 1 && IsRun(cfg, lag, events)
    ensures Safe(cfg, lag, After(cfg, events).log)
  {
    if events == [] {
      NothingAllowedYet(cfg, lag);
    } else {
      var n := |events| - 1;
      var s, e := After(cfg, events[..n]), events[n];
      WindowSafety(cfg, lag, events[..n]);
      RunKeepsInv(cfg, lag, events[..n]);
      if e.HitAt? {
        Logged(cfg, s, e.at, e.now, e.member);
        HitKeepsSafe(cfg, lag, s, e.at, e.now, e.member, Step(cfg, s, e).log);
      }
    }
  }

  ghost predicate AllRolledBack(s: State) {
    forall m :: m in s.log && !s.log[m].allowed ==> m in s.rolledBack
  }

  lemma {:induction false} NothingPending(s: State, low: int, high: int)
    requires AllRolledBack(s)
    ensures PendingIn(s.log, s.rolledBack, low, high) == {}
  {
  }

  lemma {:induction false} FairHit(cfg: Config, lag: nat, s: State, now: int, member: Member)
    requires Inv(cfg, s) && Enabled(lag, s, HitAt(now, now, member)) && AllRolledBack(s)
    ensures Refused(cfg, s, now, member) <==> |AllowedIn(s.log, now - cfg.Window(), now)| >= cfg.limit
  {
    RefusedByCount(cfg, lag, s, now, now, member);
    NothingPending(s, now - cfg.Window(), now);
  }

  lemma {:induction false} FitsWithoutLag(cfg: Config, log: Log, t: int)
    requires Safe(cfg, 0, log) && cfg.limit >= 0
    ensures |AllowedIn(log, t - cfg.Window(), t)| <= cfg.limit
  {
    assert FitsAt(cfg, 0, log, t);
  }

  /** With every rollback done, a hit that Redis runs at its reading is refused exactly when its window already holds
      the limit of allowed hits, whatever the lag of the others; without lag it then holds exactly the limit. */
  lemma {:induction false} PromptRollbacksAreFair(
      cfg: Config, lag: nat, events: seq<Event>, s: State, now: int, member: Member)
    requires cfg.windowSeconds >= 1 && cfg.limit >= 0 && Reaches(cfg, lag, events, s)
    requires Enabled(lag, s, HitAt(now, now, member)) && AllRolledBack(s)
    ensures var allowed := |AllowedIn(s.log, now - cfg.Window(), now)|;
      (Refused(cfg, s, now, member) <==> allowed >= cfg.limit) && (lag == 0 ==> allowed <= cfg.limit)
  {
    ReachesInv(cfg, lag, events, s);
    FairHit(cfg, lag, s, now, member);
    if lag == 0 {
      WindowSafety(cfg, lag, events);
      FitsWithoutLag(cfg, s.log, now);
    }
  }

  // ---------------------------------------------------------------- where the promises end

  lemma {:induction false} RunExtends(cfg: Config, lag: nat, events: seq<Event>, e: Event)
    requires IsRun(cfg, lag, events) && Enabled(lag, After(cfg, events), e)
    ensures IsRun(cfg, lag, events + [e]) && After(cfg, events + [e]) == Step(cfg, After(cfg, events), e)
  {
    assert (events + [e])[..|events|] == events;
  }

  lemma {:induction false} ReachesNext(cfg: Config, lag: nat, events: seq<Event>, s: State, e: Event, next: State)
    requires Reaches(cfg, lag, events, s) && Enabled(lag, s, e) && next == Step(cfg, s, e)
    ensures Reaches(cfg, lag, events + [e], next)
  {
    RunExtends(cfg, lag, events, e);
  }

  lemma {:induction false} FirstHit(cfg: Config)
    requires cfg == Config(1, 1)
    ensures Step(cfg, START, HitAt(0, 0, 0)) == State(map[0 := 0], 1000, 0, map[0 := Verdict(0, true)], {})
  {
    assert AfterHit(cfg, START.scores, 0, 0) == map[0 := 0];
  }

  lemma {:induction false} SecondHit(cfg: Config, s1: State)
    requires cfg == Config(1, 1) && s1 == State(map[0 := 0], 1000, 0, map[0 := Verdict(0, true)], {})
    ensures Step(cfg, s1, HitAt(500, 500, 1)) ==
      State(map[0 := 0, 1 := 500], 1500, 500, map[0 := Verdict(0, true), 1 := Verdict(500, false)], {})
  {
    var scores := AfterHit(cfg, s1.scores, 500, 1);
    assert scores == map[0 := 0, 1 := 500];
    assert scores.Keys == {0, 1};
  }

  lemma {:induction false} ThirdHit(cfg: Config, s2: State)
    requires cfg == Config(1, 1) && s2.scores == map[0 := 0, 1 := 500] && s2.rolledBack == {}
    requires s2.log == map[0 := Verdict(0, true), 1 := Verdict(500, false)]
    ensures Step(cfg, s2, HitAt(1200, 1200, 2)) ==
      State(map[1 := 500, 2 := 1200], 2200, 1200, s2.log[2 := Verdict(1200, false)], {})
  {
    var scores := AfterHit(cfg, s2.scores, 1200, 2);
    assert scores == map[1 := 500, 2 := 1200];
    assert scores.Keys == {1, 2};
  }

  /** Without its rollback a refused hit keeps counting: with a limit of 1 and a window of one second, the refused hit
      at 500 alone turns away the hit at 1200, whose window holds no allowed hit at all. */
  lemma {:induction false} LateRollbackRefusesFairHit()
    ensures var log := map[0 := Verdict(0, true), 1 := Verdict(500, false), 2 := Verdict(1200, false)];
      Reaches(Config(1, 1), 0, [HitAt(0, 0, 0)] + [HitAt(500, 500, 1)] + [HitAt(1200, 1200, 2)],
              State(map[1 := 500, 2 := 1200], 2200, 1200, log, {})) &&
      AllowedIn(log, 200, 1200) == {}
  {
    var cfg := Config(1, 1);
    var s1 := State(map[0 := 0], 1000, 0, map[0 := Verdict(0, true)], {});
    var s2 := State(map[0 := 0, 1 := 500], 1500, 500, map[0 := Verdict(0, true), 1 := Verdict(500, false)], {});
    FirstHit(cfg);
    ReachesNext(cfg, 0, [], START, HitAt(0, 0, 0), s1);
    assert [] + [HitAt(0, 0, 0)] == [HitAt(0, 0, 0)];
    SecondHit(cfg, s1);
    ReachesNext(cfg, 0, [HitAt(0, 0, 0)], s1, HitAt(500, 500, 1), s2);
    ThirdHit(cfg, s2);
    ReachesNext(cfg, 0, [HitAt(0, 0, 0)] + [HitAt(500, 500, 1)], s2, HitAt(1200, 1200, 2),
                Step(cfg, s2, HitAt(1200, 1200, 2)));
  }

  lemma {:induction false} FirstOfHundred(cfg: Config)
    requires cfg == Config(2, 1)
    ensures Step(cfg, START, HitAt(100, 100, 0)) == State(map[0 := 100], 1100, 100, map[0 := Verdict(100, true)], {})
  {
    assert AfterHit(cfg, START.scores, 100, 0) == map[0 := 100];
  }

  lemma {:induction false} NextOfHundred(cfg: Config, s1: State)
    requires cfg == Config(2, 1) && s1 == State(map[0 := 100], 1100, 100, map[0 := Verdict(100, true)], {})
    ensures Step(cfg, s1, HitAt(100, 100, 1)) ==
      State(map[0 := 100, 1 := 100], 1100, 100, map[0 := Verdict(100, true), 1 := Verdict(100, true)], {})
  {
    var scores := AfterHit(cfg, s1.scores, 100, 1);
    assert scores == map[0 := 100, 1 := 100];
    assert scores.Keys == {0, 1};
  }

  lemma {:induction false} TrimsHundred(cfg: Config, s2: State)
    requires cfg == Config(2, 1) && s2.rolledBack == {} && s2.scores == map[0 := 100, 1 := 100]
    requires s2.log == map[0 := Verdict(100, true), 1 := Verdict(100, true)]
    ensures Step(cfg, s2, HitAt(1100, 1100, 2))
         == State(map[2 := 1100], 2100, 1100, s2.log[2 := Verdict(1100, true)], {})
  {
    assert AfterHit(cfg, s2.scores, 1100, 2) == map[2 := 1100];
  }

  lemma {:induction false} LateHit(cfg: Config, s3: State)
    requires cfg == Config(2, 1) && s3.scores == map[2 := 1100] && s3.rolledBack == {}
    requires s3.log == map[0 := Verdict(100, true), 1 := Verdict(100, true), 2 := Verdict(1100, true)]
    ensures Step(cfg, s3, HitAt(1100, 1099, 3)) ==
      State(map[2 := 1100, 3 := 1099], 2100, 1100, s3.log[3 := Verdict(1099, true)], {})
  {
    var scores := AfterHit(cfg, s3.scores, 1099, 3);
    assert scores == map[2 := 1100, 3 := 1099];
    assert scores.Keys == {2, 3};
  }

  /** Two hits at 100. */
  const HUNDREDS := State(map[0 := 100, 1 := 100], 1100, 100, map[0 := Verdict(100, true), 1 := Verdict(100, true)], {})

  lemma {:induction false} TwoHundreds()
    ensures Reaches(Config(2, 1), 1, [HitAt(100, 100, 0)] + [HitAt(100, 100, 1)], HUNDREDS)
  {
    var cfg, s1 := Config(2, 1), State(map[0 := 100], 1100, 100, map[0 := Verdict(100, true)], {});
    FirstOfHundred(cfg);
    ReachesNext(cfg, 1, [], START, HitAt(100, 100, 0), s1);
    assert [] + [HitAt(100, 100, 0)] == [HitAt(100, 100, 0)];
    NextOfHundred(cfg, s1);
    ReachesNext(cfg, 1, [HitAt(100, 100, 0)], s1, HitAt(100, 100, 1), HUNDREDS);
  }

  lemma {:induction false} LateEnd(cfg: Config, events: seq<Event>, log: Log)
    requires cfg == Config(2, 1) && Reaches(cfg, 1, events, HUNDREDS)
    requires log == HUNDREDS.log[2 := Verdict(1100, true)][3 := Verdict(1099, true)]
    ensures Reaches(cfg, 1, events + [HitAt(1100, 1100, 2)] + [HitAt(1100, 1099, 3)],
                    State(map[2 := 1100, 3 := 1099], 2100, 1100, log, {}))
  {
    var s3 := State(map[2 := 1100], 2100, 1100, HUNDREDS.log[2 := Verdict(1100, true)], {});
    TrimsHundred(cfg, HUNDREDS);
    ReachesNext(cfg, 1, events, HUNDREDS, HitAt(1100, 1100, 2), s3);
    LateHit(cfg, s3);
    ReachesNext(cfg, 1, events + [HitAt(1100, 1100, 2)], s3, HitAt(1100, 1099, 3),
                State(map[2 := 1100, 3 := 1099], 2100, 1100, log, {}));
  }

  /** A transaction that arrives one millisecond after a later reading's: with a limit of 2 and a window of one second,
      the hits read at 100, 100, 1100 and 1099 are all allowed, and three of them lie in (99, 1099]. */
  lemma {:induction false} LateTransactionOverfills()
    ensures var log := HUNDREDS.log[2 := Verdict(1100, true)][3 := Verdict(1099, true)];
      Reaches(Config(2, 1), 1,
              [HitAt(100, 100, 0)] + [HitAt(100, 100, 1)] + [HitAt(1100, 1100, 2)] + [HitAt(1100, 1099, 3)],
              State(map[2 := 1100, 3 := 1099], 2100, 1100, log, {})) &&
      AllowedIn(log, 99, 1099) == {0, 1, 3} && |{0, 1, 3}| == 3
  {
    var log := HUNDREDS.log[2 := Verdict(1100, true)][3 := Verdict(1099, true)];
    TwoHundreds();
    LateEnd(Config(2, 1), [HitAt(100, 100, 0)] + [HitAt(100, 100, 1)], log);
  }

  function FirstMembers(n: nat): (members: set<Member>)
    ensures |members| == n
    ensures forall m: Member :: m in members <==> m < n
  {
    if n == 0 then {} else FirstMembers(n - 1) + {n - 1}
  }

  function BurstScores(n: nat): (scores: map<Member, int>)
    ensures |scores| == n && scores.Keys == FirstMembers(n) && forall m :: m in scores ==> scores[m] == 0
  {
    if n == 0 then map[]
    else
      KeysAfterInsert(BurstScores(n - 1), n - 1, 0);
      BurstScores(n - 1)[n - 1 := 0]
  }

  function BurstLog(n: nat): (log: Log)
    ensures log.Keys == FirstMembers(n) && forall m :: m in log ==> log[m] == Verdict(0, true)
  {
    if n == 0 then map[] else BurstLog(n - 1)[n - 1 := Verdict(0, true)]
  }

  /** The key with these members after n hits at 0, or without any when every hit deletes it. */
  function Admitted(cfg: Config, n: nat, scores: map<Member, int>, log: Log): State {
    State(if cfg.windowSeconds <= 0 then map[] else scores, if n == 0 then 0 else cfg.windowSeconds * 1000, 0, log, {})
  }

  /** The key after the burst. */
  function AfterBurst(cfg: Config, n: nat): State {
    Admitted(cfg, n, BurstScores(n), BurstLog(n))
  }

  lemma {:induction false} BurstScoresGrow(cfg: Config, n: nat)
    requires 0 < n
    ensures AfterHit(cfg, BurstScores(n - 1), 0, n - 1) == BurstScores(n) && |BurstScores(n)| == n
  {
    assert WithoutRange(BurstScores(n - 1), 0, 0 - cfg.Window()) == BurstScores(n - 1);
  }

  lemma {:induction false} SingleScore(cfg: Config, now: int, member: Member)
    ensures AfterHit(cfg, map[], now, member) == map[member := now] && |map[member := now]| == 1
  {
    assert AfterHit(cfg, map[], now, member) == map[member := now];
    assert map[member := now].Keys == {member};
    assert |map[member := now]| == |map[member := now].Keys|;
  }

  lemma {:induction false} AllowedStep(cfg: Config, s: State, at: int, now: int, member: Member,
                                       scores: map<Member, int>)
    requires AfterHit(cfg, s.scores, now, member) == scores && |scores| <= cfg.limit
    ensures Step(cfg, s, HitAt(at, now, member)) ==
      State(AfterExpire(cfg, scores), at + cfg.windowSeconds * 1000, at, s.log[member := Verdict(now, true)],
            s.rolledBack)
  {
  }

  lemma {:induction false} OneMoreAdmitted(
      cfg: Config, n: nat, scores: map<Member, int>, more: map<Member, int>, log: Log)
    requires 0 < n <= cfg.limit && AfterHit(cfg, scores, 0, n - 1) == more && |more| == n
    ensures Step(cfg, Admitted(cfg, n - 1, scores, log), HitAt(0, 0, n - 1)) ==
      Admitted(cfg, n, more, log[n - 1 := Verdict(0, true)])
  {
    var s := Admitted(cfg, n - 1, scores, log);
    if cfg.windowSeconds <= 0 {
      SingleScore(cfg, 0, n - 1);
      AllowedStep(cfg, s, 0, 0, n - 1, map[n - 1 := 0]);
    } else {
      AllowedStep(cfg, s, 0, 0, n - 1, more);
    }
  }

  lemma {:induction false} BurstLogGrows(n: nat)
    requires 0 < n
    ensures BurstLog(n) == BurstLog(n - 1)[n - 1 := Verdict(0, true)]
  {
  }

  lemma {:induction false} BurstStep(cfg: Config, n: nat)
    requires 0 < n <= cfg.limit
    ensures Step(cfg, AfterBurst(cfg, n - 1), HitAt(0, 0, n - 1)) == AfterBurst(cfg, n)
  {
    BurstScoresGrow(cfg, n);
    BurstLogGrows(n);
    OneMoreAdmitted(cfg, n, BurstScores(n - 1), BurstScores(n), BurstLog(n - 1));
  }

  lemma {:induction false} BurstEnabled(cfg: Config, lag: nat, n: nat)
    ensures Enabled(lag, AfterBurst(cfg, n), HitAt(0, 0, n))
  {
    assert n !in FirstMembers(n);
  }

  lemma {:induction false} Onward(cfg: Config, lag: nat, events: seq<Event>, s: State, e: Event, next: State)
    returns (more: seq<Event>)
    requires Reaches(cfg, lag, events, s) && Enabled(lag, s, e) && next == Step(cfg, s, e)
    ensures Reaches(cfg, lag, more, next)
  {
    more := events + [e];
    ReachesNext(cfg, lag, events, s, e, next);
  }

  lemma {:induction false} BurstExtends(cfg: Config, lag: nat, events: seq<Event>, n: nat) returns (more: seq<Event>)
    requires 0 < n <= cfg.limit && Reaches(cfg, lag, events, AfterBurst(cfg, n - 1))
    ensures Reaches(cfg, lag, more, AfterBurst(cfg, n))
  {
    BurstStep(cfg, n);
    BurstEnabled(cfg, lag, n - 1);
    more := Onward(cfg, lag, events, AfterBurst(cfg, n - 1), HitAt(0, 0, n - 1), AfterBurst(cfg, n));
  }

  lemma {:induction false} NoEvents(cfg: Config, lag: nat) returns (events: seq<Event>)
    ensures Reaches(cfg, lag, events, AfterBurst(cfg, 0))
  {
    events := [];
  }

  /** n hits in the same millisecond. */
  lemma {:induction false} Burst(cfg: Config, lag: nat, n: nat) returns (events: seq<Event>)
    requires n <= cfg.limit
    ensures Reaches(cfg, lag, events, AfterBurst(cfg, n))
  {
    if n == 0 {
      events := NoEvents(cfg, lag);
    } else {
      var fewer := Burst(cfg, lag, n - 1);
      events := BurstExtends(cfg, lag, fewer, n);
    }
  }

  /** The burst and one hit more. */
  lemma {:induction false} OneTooMany(cfg: Config, shorter: nat, reading: int)
    requires cfg.limit >= 1 && 0 <= reading && reading + shorter < cfg.Window()
    ensures !Safe(cfg, shorter, BurstLog(cfg.limit)[cfg.limit := Verdict(reading, true)])
  {
    var log := BurstLog(cfg.limit)[cfg.limit := Verdict(reading, true)];
    var low := reading - cfg.Window() + shorter;
    assert FirstMembers(cfg.limit + 1) == AllowedIn(log, low, reading);
    assert !FitsAt(cfg, shorter, log, reading);
  }

  /** On an empty key a hit is allowed. */
  lemma {:induction false} AllowedOnEmptyKey(cfg: Config, s: State, at: int, now: int, member: Member)
    requires cfg.limit >= 1 && s.scores == map[]
    ensures Step(cfg, s, HitAt(at, now, member)).log == s.log[member := Verdict(now, true)]
  {
    SingleScore(cfg, now, member);
  }

  lemma {:induction false} Overfills(cfg: Config, lag: nat, shorter: nat, events: seq<Event>, e: Event, s: State)
    requires Reaches(cfg, lag, events, s) && Enabled(lag, s, e) && !Safe(cfg, shorter, Step(cfg, s, e).log)
    ensures exists more :: IsRun(cfg, lag, more) && !Safe(cfg, shorter, After(cfg, more).log)
  {
    RunExtends(cfg, lag, events, e);
    assert IsRun(cfg, lag, events + [e]) && !Safe(cfg, shorter, After(cfg, events + [e]).log);
  }

  /** A window setting that is not positive makes EXPIRE delete the key after every hit: every hit is then admitted. */
  lemma {:induction false} NonPositiveWindowIsUnsafe(cfg: Config, lag: nat, shorter: nat)
    requires cfg.windowSeconds <= 0 && cfg.limit >= 1 && shorter < cfg.Window()
    ensures exists events :: IsRun(cfg, lag, events) && !Safe(cfg, shorter, After(cfg, events).log)
  {
    var burst := Burst(cfg, lag, cfg.limit);
    BurstEnabled(cfg, lag, cfg.limit);
    AllowedOnEmptyKey(cfg, AfterBurst(cfg, cfg.limit), 0, 0, cfg.limit);
    OneTooMany(cfg, shorter, 0);
    Overfills(cfg, lag, shorter, burst, HitAt(0, 0, cfg.limit), AfterBurst(cfg, cfg.limit));
  }

  /** The burst, when its key has expired. */
  function Expired(cfg: Config): State
    requires cfg.limit >= 0
  {
    AfterBurst(cfg, cfg.limit).(scores := map[], clock := cfg.Window())
  }

  lemma {:induction false} AfterExpiry(cfg: Config, lag: nat) returns (events: seq<Event>)
    requires cfg.windowSeconds >= 1 && cfg.limit >= 1
    ensures Reaches(cfg, lag, events, Expired(cfg))
  {
    var burst := Burst(cfg, lag, cfg.limit);
    RunExtends(cfg, lag, burst, KeyExpires(cfg.Window()));
    events := burst + [KeyExpires(cfg.Window())];
  }

  /** Windows shortened by less than transactions may lag can hold one hit too many: the limit of hits at 0, and one
      read within their window whose transaction arrives when the key has expired. */
  lemma {:induction false} LagIsUnsafe(cfg: Config, lag: nat, shorter: nat)
    requires cfg.windowSeconds >= 1 && cfg.limit >= 1 && shorter < lag && shorter < cfg.Window()
    ensures exists events :: IsRun(cfg, lag, events) && !Safe(cfg, shorter, After(cfg, events).log)
  {
    var w := cfg.Window();
    var reading := w - shorter - 1;
    var events := AfterExpiry(cfg, lag);
    BurstEnabled(cfg, lag, cfg.limit);
    AllowedOnEmptyKey(cfg, Expired(cfg), w, reading, cfg.limit);
    OneTooMany(cfg, shorter, reading);
    Overfills(cfg, lag, shorter, events, HitAt(w, reading, cfg.limit), Expired(cfg));
  }

  lemma {:induction false} NothingAllowed(cfg: Config, events: seq<Event>)
    requires cfg.limit <= 0
    ensures forall m :: m in After(cfg, events).log ==> !After(cfg, events).log[m].allowed
  {
    if events != [] {
      NothingAllowed(cfg, events[..|events| - 1]);
      var e, s := events[|events| - 1], After(cfg, events[..|events| - 1]);
      if e.HitAt? {
        assert e.member in AfterHit(cfg, s.scores, e.now, e.member);
      }
    }
  }

  lemma {:induction false} TriviallySafe(cfg: Config, shorter: nat, log: Log)
    requires (forall m :: m in log ==> !log[m].allowed) || shorter >= cfg.Window()
    ensures Safe(cfg, shorter, log)
  {
    forall t: int ensures FitsAt(cfg, shorter, log, t) {
      assert AllowedIn(log, t - cfg.Window() + shorter, t) == {};
    }
  }

  lemma {:induction false} ShorterIsSafe(cfg: Config, lag: nat, shorter: nat, log: Log)
    requires lag <= shorter && Safe(cfg, lag, log)
    ensures Safe(cfg, shorter, log)
  {
    forall t: int ensures FitsAt(cfg, shorter, log, t) {
      assert FitsAt(cfg, lag, log, t);
      AllowedWider(log, t - cfg.Window() + shorter, t, t - cfg.Window() + lag, t);
    }
  }

  lemma {:induction false} SafeRuns(cfg: Config, lag: nat, shorter: nat, events: seq<Event>)
    requires IsRun(cfg, lag, events)
    requires (cfg.windowSeconds >= 1 && lag <= shorter) || cfg.limit <= 0 || shorter >= cfg.Window()
    ensures Safe(cfg, shorter, After(cfg, events).log)
  {
    if cfg.limit <= 0 || shorter >= cfg.Window() {
      if cfg.limit <= 0 {
        NothingAllowed(cfg, events);
      }
      TriviallySafe(cfg, shorter, After(cfg, events).log);
    } else {
      WindowSafety(cfg, lag, events);
      ShorterIsSafe(cfg, lag, shorter, After(cfg, events).log);
    }
  }

  /** The limiter keeps its promise in all runs exactly when the window setting is positive and the windows are
      shortened by the greatest lag of a transaction (or nothing may pass, or nothing is left of the windows). So the
      windows of the setting itself are safe exactly without lag. */
  lemma {:induction false} SafeExactlyWhen(cfg: Config, lag: nat, shorter: nat)
    ensures (forall events :: IsRun(cfg, lag, events) ==> Safe(cfg, shorter, After(cfg, events).log))
      <==> (cfg.windowSeconds >= 1 && lag <= shorter) || cfg.limit <= 0 || shorter >= cfg.Window()
  {
    if (cfg.windowSeconds >= 1 && lag <= shorter) || cfg.limit <= 0 || shorter >= cfg.Window() {
      forall events | IsRun(cfg, lag, events) ensures Safe(cfg, shorter, After(cfg, events).log) {
        SafeRuns(cfg, lag, shorter, events);
      }
    } else if cfg.windowSeconds <= 0 {
      NonPositiveWindowIsUnsafe(cfg, lag, shorter);
    } else {
      LagIsUnsafe(cfg, lag, shorter);
    }
  }
}
