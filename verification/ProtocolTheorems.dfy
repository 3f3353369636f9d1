/** The guarantees of the token endpoint, over every run and every interleaving. */
module ProtocolTheorems {
  import opened Scopes
  import opened Policy
  import opened Protocol
  import opened ProtocolInvariants
  import opened ProtocolFrames
  import opened ProtocolSteps

  /** The states the provider can be in. */
  ghost predicate Reachable(env: Env, s: Sys) {
    exists evs :: ValidRun(env, INIT, evs) && After(env, INIT, evs) == s
  }

  lemma ReachableInv(env: Env, s: Sys)
    requires Reachable(env, s)
    ensures Inv(env, s)
  {
    InvInit(env);
    hide Inv;
    var evs :| ValidRun(env, INIT, evs) && After(env, INIT, evs) == s;
    InvRun(env, INIT, evs);
  }

  lemma {:induction false} RunsJoin(env: Env, s: Sys, evs: seq<Event>, more: seq<Event>)
    requires ValidRun(env, s, evs) && ValidRun(env, After(env, s, evs), more)
    ensures ValidRun(env, s, evs + more) && After(env, s, evs + more) == After(env, After(env, s, evs), more)
    decreases |evs|
  {
    hide Apply, Enabled;
    if evs == [] {
      assert evs + more == more;
    } else {
      assert (evs + more)[1..] == evs[1..] + more;
      RunsJoin(env, Apply(env, s, evs[0]), evs[1..], more);
    }
  }

  /** Whatever a run does from a reachable state, the state it ends in is reachable. */
  lemma ReachableContinues(env: Env, s: Sys, evs: seq<Event>)
    requires Reachable(env, s) && ValidRun(env, s, evs)
    ensures Reachable(env, After(env, s, evs))
  {
    hide Apply, Enabled;
    var before :| ValidRun(env, INIT, before) && After(env, INIT, before) == s;
    RunsJoin(env, INIT, before, evs);
  }

  lemma ReachableStep(env: Env, s: Sys, ev: Event)
    requires Reachable(env, s) && Enabled(env, s, ev)
    ensures Reachable(env, Apply(env, s, ev))
  {
    hide Apply, Enabled, Reachable;
    assert ValidRun(env, Apply(env, s, ev), []) && [ev][1..] == [];
    assert After(env, Apply(env, s, ev), []) == Apply(env, s, ev);
    ReachableContinues(env, s, [ev]);
  }

  // ----- conservation -----

  ghost function LiveTokens(s: Sys, family: string): set<string> {
    set id | id in s.tables.refresh && s.tables.refresh[id].family == family
  }

  ghost function InFlight(s: Sys, family: string): set<nat> {
    set tid | tid in s.threads && Issuing(s.threads[tid], family)
  }

  lemma AtMostOne<T>(xs: set<T>)
    requires forall a, b :: a in xs && b in xs ==> a == b
    ensures |xs| <= 1
  {
    if xs != {} {
      var a :| a in xs;
      assert xs == {a};
    }
  }

  /** A family's live refresh tokens and requests about to store one are never more than one together. */
  lemma Conservation(env: Env, s: Sys, family: string)
    requires Reachable(env, s)
    ensures |LiveTokens(s, family)| + |InFlight(s, family)| <= 1
  {
    ReachableInv(env, s);
    Carriers(env, s);
    hide Inv, Issuing;
    AtMostOne(LiveTokens(s, family));
    AtMostOne(InFlight(s, family));
    if LiveTokens(s, family) != {} {
      var id :| id in LiveTokens(s, family);
      assert InFlight(s, family) == {};
    }
  }

  lemma Carriers(env: Env, s: Sys)
    requires Inv(env, s)
    ensures OneCarrier(s.tables.refresh, s.threads)
  {
  }

  // ----- single use -----

  function CodeYields(env: Env, s: Sys, evs: seq<Event>): seq<string>
    requires ValidRun(env, s, evs)
    decreases |evs|
  {
    if evs == [] then [] else CodeYieldOf(env, s, evs[0]) + CodeYields(env, Apply(env, s, evs[0]), evs[1..])
  }

  function RefreshYields(env: Env, s: Sys, evs: seq<Event>): seq<string>
    requires ValidRun(env, s, evs)
    decreases |evs|
  {
    if evs == [] then [] else RefreshYieldOf(env, s, evs[0]) + RefreshYields(env, Apply(env, s, evs[0]), evs[1..])
  }

  lemma {:induction false} LogRun(env: Env, s: Sys, evs: seq<Event>)
    requires ValidRun(env, s, evs)
    ensures After(env, s, evs).codeLog == s.codeLog + CodeYields(env, s, evs)
    ensures After(env, s, evs).refreshLog == s.refreshLog + RefreshYields(env, s, evs)
    decreases |evs|
  {
    hide Apply, Enabled, CodeYieldOf, RefreshYieldOf;
    if evs != [] {
      StepFrame(env, s, evs[0]);
      LogRun(env, Apply(env, s, evs[0]), evs[1..]);
    }
  }

  /** Over a whole run no code and no refresh token is ever redeemed twice. */
  lemma SingleUse(env: Env, evs: seq<Event>)
    requires ValidRun(env, INIT, evs)
    ensures Distinct(CodeYields(env, INIT, evs))
    ensures Distinct(RefreshYields(env, INIT, evs))
  {
    InvInit(env);
    LogRun(env, INIT, evs);
    InvRun(env, INIT, evs);
    Logs(env, After(env, INIT, evs));
    hide Distinct, Inv;
    assert INIT.codeLog + CodeYields(env, INIT, evs) == CodeYields(env, INIT, evs);
    assert INIT.refreshLog + RefreshYields(env, INIT, evs) == RefreshYields(env, INIT, evs);
  }

  lemma Logs(env: Env, s: Sys)
    requires Inv(env, s)
    ensures Distinct(s.codeLog) && Distinct(s.refreshLog)
  {
    hide CodeOk, OriginOk, FromOrigin, AccessOk, OneCarrier, IssuedInv, ThreadsOk, PendingAlone, CoverageInv, Distinct;
  }
}
