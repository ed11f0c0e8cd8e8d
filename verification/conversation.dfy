/** The local coach's memory (coach/local_conversation.py). A turn carries the intents that scoring found. */
module Conversation {
  import opened Wrappers

  datatype Intent =
    | Fraud | Greeting | Wellbeing | Thanks | Goodbye | Help | Fallback
    | Debt | Emergency | Inflation | Receipt | Report | Calendar | Goal | Savings | Budget

  predicate Financial(i: Intent) {
    i in {Debt, Emergency, Inflation, Receipt, Report, Calendar, Goal, Savings, Budget}
  }

  /** A question: the intent of the user's own words, that of the whole text, and whether the words sound
      like a follow-up. */
  datatype Turn = Turn(session: string, userIntent: Intent, fullIntent: Intent, followUp: bool, now: real)

  /** One remembered session. */
  datatype Entry = Entry(session: string, topic: Intent, at: real)

  /** What the answer is chosen by, and whether the financial disclaimer follows it. */
  datatype Reply = Reply(intent: Intent, previous: Option<Intent>, disclaimer: bool)

  datatype ConversationError = InvalidConfig

  datatype Config = Config(ttl: real, maxSessions: int) {
    predicate Valid() {
      ttl > 0.0 && maxSessions > 0
    }
  }

  function IntentOf(t: Turn, previous: Option<Intent>): Intent {
    if t.followUp && previous.Some? then previous.value
    else if t.userIntent == Fallback then t.fullIntent
    else t.userIntent
  }

  function ReplyTo(t: Turn, previous: Option<Intent>): Reply {
    Reply(IntentOf(t, previous), previous, Financial(IntentOf(t, previous)))
  }

  // ---- the ordered map ----

  function Fresh(es: seq<Entry>, now: real, ttl: real): seq<Entry> {
    if es == [] then []
    else
      var front, e := Fresh(es[..|es| - 1], now, ttl), es[|es| - 1];
      if now - e.at > ttl then front else front + [e]
  }

  function Without(es: seq<Entry>, session: string): seq<Entry> {
    if es == [] then []
    else
      var front, e := Without(es[..|es| - 1], session), es[|es| - 1];
      if e.session == session then front else front + [e]
  }

  /** Storing a session moves it to the end. */
  function Touch(es: seq<Entry>, e: Entry): seq<Entry> {
    Without(es, e.session) + [e]
  }

  function LastN(es: seq<Entry>, n: int): (r: seq<Entry>)
    requires n >= 0
    ensures |es| <= n ==> r == es
    ensures |es| >= n ==> |r| == n
  {
    if |es| <= n then es else es[|es| - n..]
  }

  function Find(es: seq<Entry>, session: string): Option<Intent> {
    if es == [] then None
    else if es[|es| - 1].session == session then Some(es[|es| - 1].topic)
    else Find(es[..|es| - 1], session)
  }

  function Previous(cfg: Config, es: seq<Entry>, t: Turn): Option<Intent> {
    Find(Fresh(es, t.now, cfg.ttl), t.session)
  }

  function NextSessions(cfg: Config, es: seq<Entry>, t: Turn): seq<Entry>
    requires cfg.Valid()
  {
    var live := Fresh(es, t.now, cfg.ttl);
    var intent := IntentOf(t, Previous(cfg, es, t));
    if Financial(intent) then LastN(Touch(live, Entry(t.session, intent, t.now)), cfg.maxSessions) else live
  }

  // ---- the engine ----

  class LocalConversationEngine {
    const cfg: Config
    var sessions: seq<Entry>

    ghost predicate Valid()
      reads this
    {
      cfg.Valid() && DistinctSessions(sessions)
    }

    constructor (cfg: Config)
      requires cfg.Valid()
      ensures Valid() && this.cfg == cfg && sessions == []
    {
      this.cfg := cfg;
      sessions := [];
    }

    static method Create(cfg: Config) returns (r: Result<LocalConversationEngine, ConversationError>)
      ensures cfg.ttl > 0.0 && cfg.maxSessions > 0 <==> r.Success?
      ensures r.Success? ==> fresh(r.value) && r.value.Valid() && r.value.cfg == cfg && r.value.sessions == []
      ensures r.Failure? ==> r.error == InvalidConfig
    {
      if cfg.ttl <= 0.0 || cfg.maxSessions <= 0 {
        return Failure(InvalidConfig);
      }
      var engine := new LocalConversationEngine(cfg);
      return Success(engine);
    }

    /** `_evict_expired`: collect the expired sessions, then drop them. */
    method EvictExpired(now: real)
      requires Valid()
      modifies this
      ensures Valid() && sessions == Fresh(old(sessions), now, cfg.ttl)
    {
      var kept: seq<Entry> := [];
      for i := 0 to |sessions|
        invariant sessions == old(sessions)
        invariant kept == Fresh(sessions[..i], now, cfg.ttl)
      {
        assert sessions[..i + 1][..i] == sessions[..i];
        if !(now - sessions[i].at > cfg.ttl) {
          kept := kept + [sessions[i]];
        }
      }
      assert sessions[..|sessions|] == sessions;
      FreshIsDistinct(sessions, now, cfg.ttl);
      sessions := kept;
    }

    method Lookup(session: string) returns (topic: Option<Intent>)
      ensures topic == Find(sessions, session)
    {
      var i := |sessions|;
      assert sessions[..i] == sessions;
      while i > 0
        invariant 0 <= i <= |sessions|
        invariant Find(sessions[..i], session) == Find(sessions, session)
      {
        i := i - 1;
        assert sessions[..i + 1][..i] == sessions[..i];
        if sessions[i].session == session {
          return Some(sessions[i].topic);
        }
      }
      return None;
    }

    /** `self._sessions[session_id] = ...` followed by `move_to_end`. */
    method Store(e: Entry)
      requires Valid()
      modifies this
      ensures Valid() && sessions == Touch(old(sessions), e)
    {
      var kept: seq<Entry> := [];
      for i := 0 to |sessions|
        invariant sessions == old(sessions)
        invariant kept == Without(sessions[..i], e.session)
      {
        assert sessions[..i + 1][..i] == sessions[..i];
        if sessions[i].session != e.session {
          kept := kept + [sessions[i]];
        }
      }
      assert sessions[..|sessions|] == sessions;
      TouchIsDistinct(sessions, e);
      sessions := kept + [e];
    }

    /** `popitem(last=False)` until the size limit holds. */
    method Shrink()
      requires Valid()
      modifies this
      ensures Valid() && sessions == LastN(old(sessions), cfg.maxSessions)
    {
      ghost var all := sessions;
      while |sessions| > cfg.maxSessions
        invariant |sessions| <= |all| && sessions == all[|all| - |sessions|..]
        invariant |sessions| >= cfg.maxSessions || sessions == all
        decreases |sessions|
      {
        sessions := sessions[1..];
      }
    }

    method Respond(t: Turn) returns (reply: Reply)
      requires Valid()
      modifies this
      ensures Valid() && sessions == NextSessions(cfg, old(sessions), t)
      ensures reply == ReplyTo(t, Previous(cfg, old(sessions), t))
    {
      EvictExpired(t.now);
      var previous := Lookup(t.session);
      var intent := t.userIntent;
      if intent == Fallback {
        intent := t.fullIntent;
      }
      if t.followUp && previous.Some? {
        intent := previous.value;
      }
      if Financial(intent) {
        Store(Entry(t.session, intent, t.now));
        Shrink();
      }
      reply := Reply(intent, previous, Financial(intent));
    }
  }

  ghost predicate DistinctSessions(es: seq<Entry>) {
    forall i, j :: 0 <= i < j < |es| ==> es[i].session != es[j].session
  }

  lemma {:induction false} FreshIsDistinct(es: seq<Entry>, now: real, ttl: real)
    requires DistinctSessions(es)
    ensures DistinctSessions(Fresh(es, now, ttl))
    ensures forall i :: 0 <= i < |Fresh(es, now, ttl)| ==> Fresh(es, now, ttl)[i] in es
    decreases |es|
  {
    if es != [] {
      FreshIsDistinct(es[..|es| - 1], now, ttl);
      assert es == es[..|es| - 1] + [es[|es| - 1]];
    }
  }

  lemma {:induction false} WithoutIsDistinct(es: seq<Entry>, session: string)
    requires DistinctSessions(es)
    ensures DistinctSessions(Without(es, session))
    ensures forall i :: 0 <= i < |Without(es, session)| ==>
      Without(es, session)[i] in es && Without(es, session)[i].session != session
    decreases |es|
  {
    if es != [] {
      var front, e := es[..|es| - 1], es[|es| - 1];
      WithoutIsDistinct(front, session);
      assert es == front + [e];
      forall i | 0 <= i < |Without(front, session)| ensures Without(front, session)[i].session != e.session {
        assert Without(front, session)[i] in front;
      }
    }
  }

  lemma {:induction false} TouchIsDistinct(es: seq<Entry>, e: Entry)
    requires DistinctSessions(es)
    ensures DistinctSessions(Touch(es, e))
  {
    WithoutIsDistinct(es, e.session);
  }

  // ---- a run of the engine ----

  function Sessions(cfg: Config, turns: seq<Turn>): seq<Entry>
    requires cfg.Valid()
  {
    if turns == [] then [] else NextSessions(cfg, Sessions(cfg, turns[..|turns| - 1]), turns[|turns| - 1])
  }

  ghost predicate ClockRuns(turns: seq<Turn>) {
    forall i, j :: 0 <= i < j < |turns| ==> turns[i].now <= turns[j].now
  }

  // ---- the history, without any eviction ----

  /** The place of the session's last financial turn, or -1. */
  function LastIndex(log: seq<Entry>, session: string): (i: int)
    ensures -1 <= i < |log|
  {
    if log == [] then -1
    else if log[|log| - 1].session == session then |log| - 1
    else LastIndex(log[..|log| - 1], session)
  }

  lemma {:induction false} LastIndexIsLast(log: seq<Entry>, session: string)
    ensures var i := LastIndex(log, session);
      && (i >= 0 ==> log[i].session == session)
      && forall j :: i < j < |log| ==> log[j].session != session
    decreases |log|
  {
    if log != [] && log[|log| - 1].session != session {
      LastIndexIsLast(log[..|log| - 1], session);
    }
  }

  /** The sessions with a financial turn after place `i`. */
  ghost function Later(log: seq<Entry>, i: int): set<string> {
    set j | 0 <= j < |log| && i < j :: log[j].session
  }

  /** The session's last financial turn is recent enough, and fewer than `maxSessions` other sessions came
      after it. */
  ghost predicate Remembers(cfg: Config, log: seq<Entry>, session: string, now: real) {
    var i := LastIndex(log, session);
    i >= 0 && now - log[i].at <= cfg.ttl && |Later(log, i)| < cfg.maxSessions
  }

  ghost function Recalled(cfg: Config, log: seq<Entry>, t: Turn): Option<Intent> {
    if Remembers(cfg, log, t.session, t.now) then Some(log[LastIndex(log, t.session)].topic) else None
  }

  /** The financial turns of a run, as an engine that forgets nothing but the above would see them. */
  ghost function History(cfg: Config, turns: seq<Turn>): seq<Entry> {
    if turns == [] then []
    else
      var log, t := History(cfg, turns[..|turns| - 1]), turns[|turns| - 1];
      var intent := IntentOf(t, Recalled(cfg, log, t));
      if Financial(intent) then log + [Entry(t.session, intent, t.now)] else log
  }

  /** The last financial turn of every session, in the order of those turns. */
  function Latest(log: seq<Entry>): seq<Entry> {
    if log == [] then [] else Touch(Latest(log[..|log| - 1]), log[|log| - 1])
  }

  // ---- the stored sessions are a suffix of the history ----

  ghost predicate TimesRise(es: seq<Entry>) {
    forall i, j :: 0 <= i < j < |es| ==> es[i].at <= es[j].at
  }

  /** The number of leading entries that have expired. */
  function Cut(es: seq<Entry>, now: real, ttl: real): (c: nat)
    ensures c <= |es|
    ensures forall i :: 0 <= i < c ==> now - es[i].at > ttl
    ensures c < |es| ==> now - es[c].at <= ttl
  {
    if es == [] || now - es[0].at <= ttl then 0 else 1 + Cut(es[1..], now, ttl)
  }

  lemma {:induction false} FreshWhole(es: seq<Entry>, now: real, ttl: real)
    requires forall i :: 0 <= i < |es| ==> now - es[i].at <= ttl
    ensures Fresh(es, now, ttl) == es
    decreases |es|
  {
    if es != [] {
      FreshWhole(es[..|es| - 1], now, ttl);
    }
  }

  lemma {:induction false} FreshNothing(es: seq<Entry>, now: real, ttl: real)
    requires forall i :: 0 <= i < |es| ==> now - es[i].at > ttl
    ensures Fresh(es, now, ttl) == []
    decreases |es|
  {
    if es != [] {
      FreshNothing(es[..|es| - 1], now, ttl);
    }
  }

  lemma {:induction false} FreshConcat(a: seq<Entry>, b: seq<Entry>, now: real, ttl: real)
    ensures Fresh(a + b, now, ttl) == Fresh(a, now, ttl) + Fresh(b, now, ttl)
    decreases |b|
  {
    if b == [] {
      assert a + b == a;
    } else {
      assert (a + b)[..|a + b| - 1] == a + b[..|b| - 1];
      FreshConcat(a, b[..|b| - 1], now, ttl);
    }
  }

  /** In recency order the fresh part of a suffix is a suffix. */
  lemma {:induction false} FreshSuffix(es: seq<Entry>, a: nat, now: real, ttl: real)
    requires TimesRise(es) && a <= |es|
    ensures var c := Cut(es, now, ttl);
      Fresh(es[a..], now, ttl) == es[if a <= c then c else a..]
  {
    var c := Cut(es, now, ttl);
    if a <= c {
      assert es[a..] == es[a..c] + es[c..];
      FreshConcat(es[a..c], es[c..], now, ttl);
      FreshNothing(es[a..c], now, ttl);
      FreshWhole(es[c..], now, ttl);
    } else {
      FreshWhole(es[a..], now, ttl);
    }
  }

  lemma {:induction false} CutMoves(es: seq<Entry>, now: real, later: real, ttl: real)
    requires TimesRise(es) && now <= later
    ensures Cut(es, now, ttl) <= Cut(es, later, ttl)
  {}

  /** What the engine should hold at a time: the last `maxSessions` of the fresh entries. */
  function Remembered(cfg: Config, log: seq<Entry>, now: real): seq<Entry>
    requires cfg.Valid()
  {
    LastN(Fresh(Latest(log), now, cfg.ttl), cfg.maxSessions)
  }

  /** Where the remembered suffix of the recency order begins. */
  function Start(cfg: Config, all: seq<Entry>, now: real): (a: nat)
    requires cfg.Valid()
    ensures a <= |all| && a >= Cut(all, now, cfg.ttl) && |all| - a <= cfg.maxSessions
  {
    var c := Cut(all, now, cfg.ttl);
    if |all| - c <= cfg.maxSessions then c else |all| - cfg.maxSessions
  }

  lemma {:induction false} RememberedIsSuffix(cfg: Config, log: seq<Entry>, now: real)
    requires cfg.Valid() && TimesRise(Latest(log))
    ensures Remembered(cfg, log, now) == Latest(log)[Start(cfg, Latest(log), now)..]
  {
    hide Latest, Fresh;
    var all := Latest(log);
    assert all[0..] == all;
    FreshSuffix(all, 0, now, cfg.ttl);
    LastOfSuffix(all, Cut(all, now, cfg.ttl), cfg.maxSessions);
  }

  lemma {:induction false} LastOfSuffix(es: seq<Entry>, c: nat, n: int)
    requires c <= |es| && n >= 0
    ensures LastN(es[c..], n) == es[if |es| - c <= n then c else |es| - n..]
  {}

  lemma {:induction false} RememberedLater(cfg: Config, log: seq<Entry>, now: real, later: real)
    requires cfg.Valid() && TimesRise(Latest(log)) && now <= later
    ensures Fresh(Remembered(cfg, log, now), later, cfg.ttl) == Remembered(cfg, log, later)
  {
    hide Latest, Fresh, Remembered, TimesRise;
    CutMoves(Latest(log), now, later, cfg.ttl);
    RememberedIsSuffix(cfg, log, now);
    RememberedIsSuffix(cfg, log, later);
    FreshSuffix(Latest(log), Start(cfg, Latest(log), now), later, cfg.ttl);
  }

  // ---- storing an entry ----

  lemma {:induction false} WithoutConcat(a: seq<Entry>, b: seq<Entry>, session: string)
    ensures Without(a + b, session) == Without(a, session) + Without(b, session)
    decreases |b|
  {
    if b == [] {
      assert a + b == a;
    } else {
      assert (a + b)[..|a + b| - 1] == a + b[..|b| - 1];
      WithoutConcat(a, b[..|b| - 1], session);
    }
  }

  lemma {:induction false} WithoutSize(es: seq<Entry>, session: string)
    requires DistinctSessions(es)
    ensures |es| - 1 <= |Without(es, session)| <= |es|
    decreases |es|
  {
    if es != [] {
      var front, e := es[..|es| - 1], es[|es| - 1];
      if e.session == session {
        WithoutAbsent(front, session);
      } else {
        WithoutSize(front, session);
      }
    }
  }

  lemma {:induction false} WithoutAbsent(es: seq<Entry>, session: string)
    requires forall i :: 0 <= i < |es| ==> es[i].session != session
    ensures Without(es, session) == es
    decreases |es|
  {
    if es != [] {
      WithoutAbsent(es[..|es| - 1], session);
    }
  }

  /** Trimming before storing does not change what is left after trimming again. */
  lemma {:induction false} TouchAfterTrim(es: seq<Entry>, e: Entry, n: int)
    requires DistinctSessions(es) && n > 0
    ensures LastN(Touch(LastN(es, n), e), n) == LastN(Touch(es, e), n)
  {
    if |es| > n {
      var head, tail := es[..|es| - n], es[|es| - n..];
      assert es == head + tail;
      WithoutConcat(head, tail, e.session);
      assert DistinctSessions(tail);
      WithoutSize(tail, e.session);
      var kept := Touch(tail, e);
      assert Touch(es, e) == Without(head, e.session) + kept && |kept| >= n;
      assert LastN(Without(head, e.session) + kept, n) == LastN(kept, n);
    }
  }

  lemma {:induction false} FreshWithout(es: seq<Entry>, session: string, now: real, ttl: real)
    ensures Fresh(Without(es, session), now, ttl) == Without(Fresh(es, now, ttl), session)
    decreases |es|
  {
    if es != [] {
      var front, e := es[..|es| - 1], es[|es| - 1];
      FreshWithout(front, session, now, ttl);
      var w, f := Without(front, session), Fresh(front, now, ttl);
      assert (w + [e])[..|w|] == w && (f + [e])[..|f|] == f;
    }
  }

  lemma {:induction false} FreshTouch(es: seq<Entry>, e: Entry, ttl: real)
    requires ttl > 0.0
    ensures Fresh(Touch(es, e), e.at, ttl) == Touch(Fresh(es, e.at, ttl), e)
  {
    FreshWithout(es, e.session, e.at, ttl);
    var w := Without(es, e.session);
    assert (w + [e])[..|w|] == w;
  }

  lemma {:induction false} LatestStep(log: seq<Entry>, e: Entry)
    ensures Latest(log + [e]) == Touch(Latest(log), e)
  {
    assert (log + [e])[..|log|] == log;
  }

  /** Storing the entry of a turn brings the memory to where the longer history is. */
  lemma {:induction false} RememberedStep(cfg: Config, log: seq<Entry>, e: Entry)
    requires cfg.Valid() && DistinctSessions(Latest(log))
    ensures LastN(Touch(Remembered(cfg, log, e.at), e), cfg.maxSessions) == Remembered(cfg, log + [e], e.at)
  {
    var live := Fresh(Latest(log), e.at, cfg.ttl);
    FreshIsDistinct(Latest(log), e.at, cfg.ttl);
    TouchAfterTrim(live, e, cfg.maxSessions);
    FreshTouch(Latest(log), e, cfg.ttl);
    LatestStep(log, e);
  }

  // ---- the recency order, by places in the history ----

  /** The entries of the recency order are the last ones of their sessions, in the order of the history. */
  ghost predicate InRecencyOrder(log: seq<Entry>, es: seq<Entry>) {
    && (forall p :: 0 <= p < |es| ==> LastIndex(log, es[p].session) >= 0 && log[LastIndex(log, es[p].session)] == es[p])
    && (forall p, q :: 0 <= p < q < |es| ==> LastIndex(log, es[p].session) < LastIndex(log, es[q].session))
  }

  ghost predicate Has(es: seq<Entry>, session: string) {
    exists p :: 0 <= p < |es| && es[p].session == session
  }

  ghost predicate Complete(log: seq<Entry>, es: seq<Entry>) {
    forall s :: LastIndex(log, s) >= 0 ==> Has(es, s)
  }

  lemma {:induction false} LastIndexStep(log: seq<Entry>, e: Entry, s: string)
    ensures LastIndex(log + [e], s) == if s == e.session then |log| else LastIndex(log, s)
  {
    assert (log + [e])[..|log|] == log;
  }

  lemma {:induction false} OrderExtends(log: seq<Entry>, es: seq<Entry>, e: Entry)
    requires InRecencyOrder(log, es) && LastIndex(log, e.session) >= 0 && log[LastIndex(log, e.session)] == e
    requires forall p :: 0 <= p < |es| ==> LastIndex(log, es[p].session) < LastIndex(log, e.session)
    ensures InRecencyOrder(log, es + [e])
  {
    hide LastIndex;
  }

  lemma {:induction false} OrderSplits(log: seq<Entry>, es: seq<Entry>)
    requires es != [] && InRecencyOrder(log, es)
    ensures var front, e := es[..|es| - 1], es[|es| - 1];
      && InRecencyOrder(log, front) && LastIndex(log, e.session) >= 0 && log[LastIndex(log, e.session)] == e
      && forall p :: 0 <= p < |front| ==> LastIndex(log, front[p].session) < LastIndex(log, e.session)
  {
    hide LastIndex;
  }

  lemma {:induction false} WithoutMembers(es: seq<Entry>, session: string)
    ensures forall p :: 0 <= p < |Without(es, session)| ==>
      Without(es, session)[p].session != session && Without(es, session)[p] in es
    decreases |es|
  {
    if es != [] {
      WithoutMembers(es[..|es| - 1], session);
      assert es == es[..|es| - 1] + [es[|es| - 1]];
    }
  }

  lemma {:induction false} WithoutKeeps(es: seq<Entry>, session: string, s: string)
    requires s != session && Has(es, s)
    ensures Has(Without(es, session), s)
    decreases |es|
  {
    var p :| 0 <= p < |es| && es[p].session == s;
    var front, e := es[..|es| - 1], es[|es| - 1];
    var w := Without(front, session);
    if p == |es| - 1 {
      assert Without(es, session)[|w|].session == s;
    } else {
      assert front[p].session == s;
      WithoutKeeps(front, session, s);
      var q :| 0 <= q < |w| && w[q].session == s;
      assert Without(es, session)[q].session == s;
    }
  }

  /** Removing one session keeps the rest in place. */
  lemma {:induction false} WithoutPlaces(log: seq<Entry>, es: seq<Entry>, session: string)
    requires InRecencyOrder(log, es)
    ensures InRecencyOrder(log, Without(es, session))
    decreases |es|
  {
    if es != [] {
      hide LastIndex, InRecencyOrder;
      var front, e := es[..|es| - 1], es[|es| - 1];
      OrderSplits(log, es);
      WithoutPlaces(log, front, session);
      if e.session != session {
        WithoutMembers(front, session);
        OrderExtends(log, Without(front, session), e);
      }
    } else {
      assert InRecencyOrder(log, []);
    }
  }

  /** A longer history changes the places of one session only. */
  lemma {:induction false} OrderSurvives(log: seq<Entry>, es: seq<Entry>, e: Entry)
    requires InRecencyOrder(log, es) && forall p :: 0 <= p < |es| ==> es[p].session != e.session
    ensures InRecencyOrder(log + [e], es)
  {
    hide LastIndex;
    forall p | 0 <= p < |es| ensures LastIndex(log + [e], es[p].session) == LastIndex(log, es[p].session) {
      LastIndexStep(log, e, es[p].session);
    }
  }

  lemma {:induction false} TouchPlaces(log: seq<Entry>, es: seq<Entry>, e: Entry)
    requires InRecencyOrder(log, es) && Complete(log, es)
    ensures InRecencyOrder(log + [e], Touch(es, e)) && Complete(log + [e], Touch(es, e))
  {
    hide LastIndex, InRecencyOrder;
    var w, grown, touched := Without(es, e.session), log + [e], Touch(es, e);
    WithoutPlaces(log, es, e.session);
    WithoutMembers(es, e.session);
    OrderSurvives(log, w, e);
    LastIndexStep(log, e, e.session);
    forall p | 0 <= p < |w| ensures LastIndex(grown, w[p].session) < LastIndex(grown, e.session) {
      LastIndexStep(log, e, w[p].session);
    }
    OrderExtends(grown, w, e);
    forall s | LastIndex(grown, s) >= 0 ensures Has(touched, s) {
      LastIndexStep(log, e, s);
      if s == e.session {
        assert touched[|w|].session == s;
      } else {
        WithoutKeeps(es, e.session, s);
        var q :| 0 <= q < |w| && w[q].session == s;
        assert touched[q].session == s;
      }
    }
  }

  lemma {:induction false} LatestPlaces(log: seq<Entry>)
    ensures InRecencyOrder(log, Latest(log)) && Complete(log, Latest(log)) && DistinctSessions(Latest(log))
    decreases |log|
  {
    if log != [] {
      var front, e := log[..|log| - 1], log[|log| - 1];
      LatestPlaces(front);
      assert front + [e] == log;
      TouchPlaces(front, Latest(front), e);
      TouchIsDistinct(Latest(front), e);
    }
  }

  lemma {:induction false} LatestTimes(log: seq<Entry>)
    requires TimesRise(log)
    ensures TimesRise(Latest(log))
  {
    LatestPlaces(log);
    var es := Latest(log);
    forall p, q | 0 <= p < q < |es| ensures es[p].at <= es[q].at {
      assert LastIndex(log, es[p].session) < LastIndex(log, es[q].session);
    }
  }

  lemma {:induction false} DistinctSize(es: seq<Entry>)
    requires DistinctSessions(es)
    ensures |SessionSet(es)| == |es|
    decreases |es|
  {
    if es != [] {
      var front, e := es[..|es| - 1], es[|es| - 1];
      DistinctSize(front);
      SessionSetStep(front, e);
      assert front + [e] == es;
    }
  }

  ghost function SessionSet(es: seq<Entry>): set<string> {
    set p | 0 <= p < |es| :: es[p].session
  }

  lemma {:induction false} SessionSetStep(es: seq<Entry>, e: Entry)
    ensures SessionSet(es + [e]) == SessionSet(es) + {e.session}
  {
    var all := es + [e];
    assert all[|es|] == e && forall p :: 0 <= p < |es| ==> all[p] == es[p];
    forall s ensures s in SessionSet(all) <==> s in SessionSet(es) || s == e.session {
      if s in SessionSet(es) {
        var p :| 0 <= p < |es| && es[p].session == s;
        assert all[p].session == s;
      }
    }
  }

  lemma {:induction false} BehindIsLater(log: seq<Entry>, es: seq<Entry>, p: int, s: string)
    requires InRecencyOrder(log, es) && 0 <= p < |es| && s in SessionSet(es[p + 1..])
    ensures s in Later(log, LastIndex(log, es[p].session))
  {
    hide LastIndex;
    var q :| 0 <= q < |es[p + 1..]| && es[p + 1..][q].session == s;
    assert es[p + 1 + q].session == s;
    var j := LastIndex(log, s);
    assert log[j].session == s;
  }

  lemma {:induction false} LaterIsBehind(log: seq<Entry>, es: seq<Entry>, p: int, s: string)
    requires InRecencyOrder(log, es) && Complete(log, es)
    requires 0 <= p < |es| && s in Later(log, LastIndex(log, es[p].session))
    ensures s in SessionSet(es[p + 1..])
  {
    hide LastIndex;
    var i := LastIndex(log, es[p].session);
    var j :| 0 <= j < |log| && i < j && log[j].session == s;
    LastIndexIsLast(log, s);
    assert Has(es, s);
    var q :| 0 <= q < |es| && es[q].session == s;
    assert q > p;
    assert es[p + 1..][q - p - 1].session == s;
  }

  /** The sessions after an entry in the recency order are those with a later financial turn. */
  lemma {:induction false} LaterAreBehind(log: seq<Entry>, p: int)
    requires 0 <= p < |Latest(log)|
    ensures |Later(log, LastIndex(log, Latest(log)[p].session))| == |Latest(log)| - 1 - p
  {
    hide LastIndex, Later, SessionSet, InRecencyOrder, Complete, Latest;
    LatestPlaces(log);
    var es := Latest(log);
    var i := LastIndex(log, es[p].session);
    forall s ensures s in Later(log, i) <==> s in SessionSet(es[p + 1..]) {
      if s in Later(log, i) {
        LaterIsBehind(log, es, p, s);
      }
      if s in SessionSet(es[p + 1..]) {
        BehindIsLater(log, es, p, s);
      }
    }
    assert Later(log, i) == SessionSet(es[p + 1..]);
    DistinctSize(es[p + 1..]);
  }

  /** The memory's contents by the history alone: exactly the sessions whose last financial turn is recent
      enough and has fewer than `maxSessions` other sessions after it, each with that turn's topic and
      time, in the order of those turns. */
  ghost predicate HoldsExactly(cfg: Config, log: seq<Entry>, now: real, es: seq<Entry>) {
    && InRecencyOrder(log, es)
    && forall s :: Has(es, s) <==> Remembers(cfg, log, s, now)
  }

  /** An entry of the recency order is kept exactly when the history says so. */
  lemma {:induction false} KeptOrNot(cfg: Config, log: seq<Entry>, now: real, q: int)
    requires cfg.Valid() && TimesRise(log) && 0 <= q < |Latest(log)|
    ensures Remembers(cfg, log, Latest(log)[q].session, now) <==> q >= Start(cfg, Latest(log), now)
  {
    hide Latest, LastIndex, Later;
    LatestTimes(log);
    LatestPlaces(log);
    LaterAreBehind(log, q);
    var all := Latest(log);
    var c := Cut(all, now, cfg.ttl);
    assert now - all[q].at <= cfg.ttl <==> q >= c;
  }

  lemma {:induction false} SuffixHas(es: seq<Entry>, a: int, s: string)
    requires 0 <= a <= |es|
    ensures Has(es[a..], s) <==> exists q :: a <= q < |es| && es[q].session == s
  {
    if Has(es[a..], s) {
      var p :| 0 <= p < |es[a..]| && es[a..][p].session == s;
      assert es[a + p].session == s;
    }
    if exists q :: a <= q < |es| && es[q].session == s {
      var q :| a <= q < |es| && es[q].session == s;
      assert es[a..][q - a].session == s;
    }
  }

  lemma {:induction false} SuffixInOrder(log: seq<Entry>, es: seq<Entry>, a: int)
    requires InRecencyOrder(log, es) && 0 <= a <= |es|
    ensures InRecencyOrder(log, es[a..])
  {
    hide LastIndex;
  }

  lemma {:induction false} RememberedHolds(cfg: Config, log: seq<Entry>, now: real)
    requires cfg.Valid() && TimesRise(log)
    ensures HoldsExactly(cfg, log, now, Remembered(cfg, log, now))
  {
    hide Latest, Remembered, LastIndex, InRecencyOrder, Later, TimesRise;
    LatestTimes(log);
    LatestPlaces(log);
    RememberedIsSuffix(cfg, log, now);
    var all := Latest(log);
    var a := Start(cfg, all, now);
    SuffixInOrder(log, all, a);
    forall s ensures Has(all[a..], s) <==> Remembers(cfg, log, s, now) {
      SuffixHas(all, a, s);
      if Has(all[a..], s) {
        var q :| a <= q < |all| && all[q].session == s;
        KeptOrNot(cfg, log, now, q);
      }
      if Remembers(cfg, log, s, now) {
        assert Has(all, s);
        var q :| 0 <= q < |all| && all[q].session == s;
        KeptOrNot(cfg, log, now, q);
      }
    }
  }

  lemma {:induction false} FindEntry(es: seq<Entry>, session: string, p: int)
    requires DistinctSessions(es) && 0 <= p < |es| && es[p].session == session
    ensures Find(es, session) == Some(es[p].topic)
    decreases |es|
  {
    if p < |es| - 1 {
      FindEntry(es[..|es| - 1], session, p);
    }
  }

  lemma {:induction false} FindNothing(es: seq<Entry>, session: string)
    requires forall p :: 0 <= p < |es| ==> es[p].session != session
    ensures Find(es, session) == None
    decreases |es|
  {
    if es != [] {
      FindNothing(es[..|es| - 1], session);
    }
  }

  lemma {:induction false} OrderIsDistinct(log: seq<Entry>, es: seq<Entry>)
    requires InRecencyOrder(log, es)
    ensures DistinctSessions(es)
  {
    hide LastIndex;
  }

  /** The engine looks up what the history recalls. */
  lemma {:induction false} LookupRecalls(cfg: Config, log: seq<Entry>, t: Turn)
    requires cfg.Valid() && TimesRise(log)
    ensures Find(Remembered(cfg, log, t.now), t.session) == Recalled(cfg, log, t)
  {
    hide LastIndex, Later, Remembered, TimesRise;
    var es := Remembered(cfg, log, t.now);
    RememberedHolds(cfg, log, t.now);
    if Remembers(cfg, log, t.session, t.now) {
      assert Has(es, t.session);
      var p :| 0 <= p < |es| && es[p].session == t.session;
      OrderIsDistinct(log, es);
      FindEntry(es, t.session, p);
    } else {
      assert !Has(es, t.session);
      FindNothing(es, t.session);
    }
  }

  // ---- the engine refines the history ----

  lemma {:induction false} HistoryTimes(cfg: Config, turns: seq<Turn>)
    requires ClockRuns(turns)
    ensures TimesRise(History(cfg, turns))
    ensures turns != [] ==>
      forall i :: 0 <= i < |History(cfg, turns)| ==> History(cfg, turns)[i].at <= turns[|turns| - 1].now
    ensures turns == [] ==> History(cfg, turns) == []
    decreases |turns|
  {
    if turns != [] {
      HistoryTimes(cfg, turns[..|turns| - 1]);
    }
  }

  /** After any run the engine holds what the history says it should. */
  lemma {:induction false} EngineHolds(cfg: Config, turns: seq<Turn>, now: real)
    requires cfg.Valid() && ClockRuns(turns) && turns != [] && now == turns[|turns| - 1].now
    ensures Sessions(cfg, turns) == Remembered(cfg, History(cfg, turns), now)
    decreases |turns|, 0
  {
    hide Remembered, Latest, Fresh, Touch, Remembers;
    var front, t := turns[..|turns| - 1], turns[|turns| - 1];
    var log := History(cfg, front);
    HistoryTimes(cfg, front);
    EngineLater(cfg, front, t);
    LookupRecalls(cfg, log, t);
    LatestPlaces(log);
    RememberedStep(cfg, log, Entry(t.session, IntentOf(t, Recalled(cfg, log, t)), t.now));
  }

  lemma {:induction false} NothingRemembered(cfg: Config, now: real)
    requires cfg.Valid()
    ensures Fresh([], now, cfg.ttl) == Remembered(cfg, [], now)
  {}

  /** The state before a turn, once the expired sessions are gone. */
  lemma {:induction false} EngineLater(cfg: Config, turns: seq<Turn>, t: Turn)
    requires cfg.Valid() && ClockRuns(turns) && (turns != [] ==> turns[|turns| - 1].now <= t.now)
    ensures Fresh(Sessions(cfg, turns), t.now, cfg.ttl) == Remembered(cfg, History(cfg, turns), t.now)
    decreases |turns|, 1
  {
    if turns == [] {
      NothingRemembered(cfg, t.now);
    } else {
      var now := turns[|turns| - 1].now;
      HistoryTimes(cfg, turns);
      LatestTimes(History(cfg, turns));
      EngineHolds(cfg, turns, now);
      RememberedLater(cfg, History(cfg, turns), now, t.now);
    }
  }

  /** The engine refines the history: in every run with a clock that does not go back, each answer is the
      one the full history gives, and after it the stored sessions are exactly those the history keeps. */
  lemma {:induction false} EngineRefinesHistory(cfg: Config, turns: seq<Turn>, t: Turn)
    requires cfg.Valid() && ClockRuns(turns + [t])
    ensures ReplyTo(t, Previous(cfg, Sessions(cfg, turns), t)) == ReplyTo(t, Recalled(cfg, History(cfg, turns), t))
    ensures HoldsExactly(cfg, History(cfg, turns + [t]), t.now, Sessions(cfg, turns + [t]))
    ensures |Sessions(cfg, turns + [t])| <= cfg.maxSessions
  {
    hide Fresh, Latest, HoldsExactly;
    var all := turns + [t];
    assert all[..|turns|] == turns && all[|turns|] == t;
    assert ClockRuns(turns) by {
      assert forall i :: 0 <= i < |turns| ==> turns[i] == all[i];
    }
    HistoryTimes(cfg, turns);
    HistoryTimes(cfg, all);
    EngineLater(cfg, turns, t);
    LookupRecalls(cfg, History(cfg, turns), t);
    EngineHolds(cfg, all, t.now);
    RememberedHolds(cfg, History(cfg, all), t.now);
  }

  // ---- what a remembered topic does ----

  lemma {:induction false} HistoryIsFinancial(cfg: Config, turns: seq<Turn>)
    ensures forall i :: 0 <= i < |History(cfg, turns)| ==> Financial(History(cfg, turns)[i].topic)
    decreases |turns|
  {
    if turns != [] {
      HistoryIsFinancial(cfg, turns[..|turns| - 1]);
    }
  }

  /** A follow-up in a remembered session is answered on the remembered topic, with the disclaimer, and
      makes the session the most recent one on that topic. */
  lemma {:induction false} FollowUpKeepsTopic(cfg: Config, turns: seq<Turn>, t: Turn)
    requires cfg.Valid() && ClockRuns(turns + [t]) && t.followUp
    requires Remembers(cfg, History(cfg, turns), t.session, t.now)
    ensures var log := History(cfg, turns);
      var topic := log[LastIndex(log, t.session)].topic;
      var es := Sessions(cfg, turns + [t]);
      && ReplyTo(t, Previous(cfg, Sessions(cfg, turns), t)) == Reply(topic, Some(topic), true)
      && es != [] && es[|es| - 1] == Entry(t.session, topic, t.now)
  {
    hide Fresh, Latest, HoldsExactly, Sessions, Remembered;
    var log, all := History(cfg, turns), turns + [t];
    assert all[..|turns|] == turns && all[|turns|] == t;
    EngineRefinesHistory(cfg, turns, t);
    HistoryIsFinancial(cfg, turns);
    LastTouched(cfg, Sessions(cfg, turns), t, log[LastIndex(log, t.session)].topic);
    RunStep(cfg, turns, t);
  }

  lemma {:induction false} RunStep(cfg: Config, turns: seq<Turn>, t: Turn)
    requires cfg.Valid()
    ensures Sessions(cfg, turns + [t]) == NextSessions(cfg, Sessions(cfg, turns), t)
  {
    assert (turns + [t])[..|turns|] == turns;
  }

  lemma {:induction false} LastTouched(cfg: Config, es: seq<Entry>, t: Turn, topic: Intent)
    requires cfg.Valid() && IntentOf(t, Previous(cfg, es, t)) == topic && Financial(topic)
    ensures var next := NextSessions(cfg, es, t);
      next != [] && next[|next| - 1] == Entry(t.session, topic, t.now)
  {}

  // ---- what a turn is answered with ----

  /** The intents that are answered with advice, a disclaimer and a memory of the topic. */
  ghost predicate IsAdvice(i: Intent) {
    || i == Debt || i == Emergency || i == Inflation || i == Receipt || i == Report || i == Calendar || i == Goal
    || i == Savings || i == Budget
  }

  /** The user's own words decide, the whole text only where they say nothing; a remembered topic comes first
      for a follow-up. */
  ghost predicate IntentIs(t: Turn, recalled: Option<Intent>, intent: Intent) {
    && (t.followUp && recalled.Some? ==> intent == recalled.value)
    && ((!t.followUp || recalled.None?) && t.userIntent != Fallback ==> intent == t.userIntent)
    && ((!t.followUp || recalled.None?) && t.userIntent == Fallback ==> intent == t.fullIntent)
  }

  lemma {:induction false} FreshKeeps(es: seq<Entry>, now: real, ttl: real)
    ensures forall e :: e in Fresh(es, now, ttl) <==> e in es && now - e.at <= ttl
    decreases |es|
  {
    if es != [] {
      FreshKeeps(es[..|es| - 1], now, ttl);
      assert es == es[..|es| - 1] + [es[|es| - 1]];
    }
  }

  /** Every turn of every run: the topic the history recalls, the intent of the answer, the disclaimer, what
      the history and the sessions then hold. Without advice the sessions only lose their expired entries. */
  lemma {:induction false} WordsDecide(cfg: Config, turns: seq<Turn>, t: Turn)
    requires cfg.Valid() && ClockRuns(turns + [t])
    ensures var log, before, after := History(cfg, turns), Sessions(cfg, turns), Sessions(cfg, turns + [t]);
      var reply, i := ReplyTo(t, Previous(cfg, before, t)), LastIndex(log, t.session);
      && (Remembers(cfg, log, t.session, t.now) ==> i >= 0 && reply.previous == Some(log[i].topic))
      && (!Remembers(cfg, log, t.session, t.now) ==> reply.previous == None)
      && IntentIs(t, reply.previous, reply.intent)
      && (reply.disclaimer <==> IsAdvice(reply.intent))
      && (IsAdvice(reply.intent) ==>
            && History(cfg, turns + [t]) == log + [Entry(t.session, reply.intent, t.now)]
            && after != [] && after[|after| - 1] == Entry(t.session, reply.intent, t.now))
      && (!IsAdvice(reply.intent) ==>
            && History(cfg, turns + [t]) == log
            && forall e :: e in after <==> e in before && t.now - e.at <= cfg.ttl)
  {
    hide Fresh, Latest, HoldsExactly, Sessions, Remembered, LastIndex, Later, Touch, LastN;
    assert (turns + [t])[..|turns|] == turns;
    var before := Sessions(cfg, turns);
    EngineRefinesHistory(cfg, turns, t);
    RecallIsPrevious(cfg, turns, t);
    RunStep(cfg, turns, t);
    FreshKeeps(before, t.now, cfg.ttl);
    var reply := ReplyTo(t, Previous(cfg, before, t));
    if IsAdvice(reply.intent) {
      LastTouched(cfg, before, t, reply.intent);
    }
  }

  lemma {:induction false} RecallIsPrevious(cfg: Config, turns: seq<Turn>, t: Turn)
    requires cfg.Valid() && ClockRuns(turns + [t])
    ensures Previous(cfg, Sessions(cfg, turns), t) == Recalled(cfg, History(cfg, turns), t)
  {
    hide Fresh, Sessions, History, Remembers;
    var all := turns + [t];
    assert all[..|turns|] == turns && all[|turns|] == t;
    assert ClockRuns(turns) by {
      assert forall i :: 0 <= i < |turns| ==> turns[i] == all[i];
    }
    HistoryTimes(cfg, turns);
    EngineLater(cfg, turns, t);
    LookupRecalls(cfg, History(cfg, turns), t);
  }

  /** A report of fraud is answered as one exactly when it does not sound like a follow-up or the session is
      not remembered: a remembered topic takes precedence over it. */
  lemma {:induction false} FraudAnswered(cfg: Config, turns: seq<Turn>, t: Turn)
    requires cfg.Valid() && ClockRuns(turns + [t]) && t.userIntent == Fraud
    ensures ReplyTo(t, Previous(cfg, Sessions(cfg, turns), t)).intent == Fraud <==>
      !(t.followUp && Remembers(cfg, History(cfg, turns), t.session, t.now))
  {
    hide Fresh, Latest, HoldsExactly, Sessions, History, Later;
    EngineRefinesHistory(cfg, turns, t);
    HistoryIsFinancial(cfg, turns);
  }

  /** A question about the budget, then a report of fraud with a word that sounds like a follow-up. */
  function BudgetQuestion(): Turn {
    Turn("s", Budget, Budget, false, 0.0)
  }

  function FraudReport(): Turn {
    Turn("s", Fraud, Fraud, true, 0.0)
  }

  lemma {:induction false} NothingYet(cfg: Config)
    requires cfg.Valid()
    ensures Sessions(cfg, []) == []
  {}

  /** A first financial turn leaves its own session and nothing else. */
  lemma {:induction false} FirstTurn(cfg: Config, t: Turn)
    requires cfg.Valid() && !t.followUp && Financial(IntentOf(t, None))
    ensures NextSessions(cfg, [], t) == [Entry(t.session, IntentOf(t, None), t.now)]
  {
    assert Touch([], Entry(t.session, IntentOf(t, None), t.now)) == [Entry(t.session, IntentOf(t, None), t.now)];
  }

  /** Whatever the time to live and the size limit, the report is answered with advice on the budget. */
  lemma {:induction false} FraudIsMasked(cfg: Config)
    requires cfg.Valid()
    ensures ClockRuns([BudgetQuestion(), FraudReport()])
    ensures var reply := ReplyTo(FraudReport(), Previous(cfg, Sessions(cfg, [BudgetQuestion()]), FraudReport()));
      reply == Reply(Budget, Some(Budget), true)
  {
    hide Fresh, Touch, LastN, Find, NextSessions, Sessions;
    var first, es := BudgetQuestion(), [Entry("s", Budget, 0.0)];
    assert [] + [first] == [first];
    NothingYet(cfg);
    RunStep(cfg, [], first);
    FirstTurn(cfg, first);
    FreshWhole(es, 0.0, cfg.ttl);
    FindEntry(es, "s", 0);
  }
}
