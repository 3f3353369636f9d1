/** A refresh token that is presented again: when that is noticed, and what it does. */
module Replay {
  import opened Policy
  import opened StoreTables
  import opened Protocol
  import opened ProtocolInvariants
  import opened ProtocolFrames
  import opened ProtocolSteps
  import opened ProtocolTheorems
  import opened Revocation

  /** What the history says about a redeemed refresh token. */
  lemma ConsumedFacts(env: Env, s: Sys, id: string)
    requires Inv(env, s) && id in s.consumed
    ensures id !in s.tables.refresh
    ensures id in s.tables.used ==> s.tables.used[id] == s.consumed[id]
    ensures s.consumed[id].family in s.families && s.consumed[id].family != ""
  {
    hide CodesInv, OneCarrier, IssuedInv, JtisInv, CoverageInv, ThreadsOk, PendingAlone, DeniedInv, OriginOk, ForeignInv;
  }

  // ----- how long a consumed token is remembered -----

  /** The two tables remember the same about the token, but for the revocation of the given families. */
  predicate RemembersBut(s: Tables, r: Tables, id: string, f: RefreshEntry, killed: set<string>) {
    id in r.used <==> id in s.used && f.family !in killed
  }

  lemma SweepRemembers(s: Tables, t: Time, id: string, f: RefreshEntry)
    requires (id in s.used ==> s.used[id] == f) && t <= f.expiresAt
    ensures RemembersBut(s, DropExpired(s, t), id, f, {})
  {
  }

  lemma CutRemembers(s: Tables, family: string, t: Time, id: string, f: RefreshEntry)
    requires (id in s.used ==> s.used[id] == f) && f.family != ""
    ensures RemembersBut(s, RevokeFamily(s, family, t), id, f, {family})
  {
    hide Doomed;
  }

  lemma TakeRemembers(env: Env, s: Sys, cr: Credentials, token: string, t1: Time, t2: Time, id: string)
    requires Inv(env, s) && id in s.consumed && s.clock <= t1 <= t2 <= s.consumed[id].expiresAt
    ensures RemembersBut(s.tables, AfterTakeRefresh(env, s, cr, token, t1, t2), id, s.consumed[id],
                         {ReplayedFamily(env, s, cr, token, t1)})
  {
    hide Inv, AuthenticateClient, DropExpired, RevokeFamily;
    ConsumedFacts(env, s, id);
    var f, s1 := s.consumed[id], Swept(s, t1);
    SweepRemembers(s.tables, t1, id, f);
    SweepKeeps(env, s, t1);
    ConsumedFacts(env, s1, id);
    if token in s1.tables.used {
      CutRemembers(s1.tables, s1.tables.used[token].family, t2, id, f);
    }
  }

  lemma RevokeRemembers(env: Env, s: Sys, token: string, t: Time, id: string)
    requires Inv(env, s) && id in s.consumed
    ensures RemembersBut(s.tables, RevokeToken(s.tables, token, t), id, s.consumed[id], {OpaqueFamily(s, token)})
  {
    hide Inv, RevokeFamily;
    ConsumedFacts(env, s, id);
    var f, s1 := s.consumed[id], s.tables.(codes := s.tables.codes - {token});
    if token in s1.refresh {
      CutRemembers(s1.(refresh := s1.refresh - {token}), s1.refresh[token].family, t, id, f);
    } else if token in s1.used {
      CutRemembers(s1, s1.used[token].family, t, id, f);
    }
  }

  predicate Revokes(ev: Event) {
    ev.RefreshGrant? || ev.MismatchRevoke? || ev.RevokeOpaque? || ev.Logout?
  }

  lemma NoKills(env: Env, s: Sys, ev: Event)
    requires !Revokes(ev)
    ensures Kills(env, s, ev) == {}
  {
  }

  /** The events that sweep. */
  lemma SweepStep(env: Env, s: Sys, ev: Event, id: string)
    requires Inv(env, s) && Enabled(env, s, ev) && (ev.AuthorizeEvent? || ev.CodeGrant? || ev.StoreRefresh? || ev.FailedAdd?)
    requires id in s.consumed && ev.t2 <= s.consumed[id].expiresAt
    ensures RemembersBut(s.tables, Apply(env, s, ev).tables, id, s.consumed[id], {})
  {
    hide Inv, DoAuthorize, DoCodeGrant, DoRefreshGrant, DoAppGrant, DoSign, DoRegister, DoCheck, DropExpired, NewEntry, RemembersBut;
    hide RevokeFamily, RevokeToken, Kills, DenyJti, Presentable, Unseen;
    ConsumedFacts(env, s, id);
    var f := s.consumed[id];
    match ev
    case AuthorizeEvent(q, username, password, i, t1, t2) => AuthorizeRemembers(env, s, q, username, password, i, t1, t2, id);
    case CodeGrant(tid, cr, token, redirectUri, verifier, i, t1, t2) =>
      CodeGrantRemembers(env, s, tid, cr, token, redirectUri, verifier, i, t1, t2, id);
    case StoreRefresh(tid, i, t1, t2) =>
      SweepRemembers(s.tables, t1, id, f);
      SameUsed(DropExpired(s.tables, t1), Apply(env, s, ev).tables, s.tables, id, f);
    case FailedAdd(t2) => SweepRemembers(s.tables, t2, id, f);
  }

  /** The events that revoke. */
  lemma CutStep(env: Env, s: Sys, ev: Event, id: string)
    requires Inv(env, s) && Enabled(env, s, ev) && Revokes(ev)
    requires id in s.consumed && ev.t2 <= s.consumed[id].expiresAt
    ensures RemembersBut(s.tables, Apply(env, s, ev).tables, id, s.consumed[id], Kills(env, s, ev))
  {
    hide Inv, DoAuthorize, DoCodeGrant, DoRefreshGrant, DoAppGrant, DoSign, DoRegister, DoCheck, DoStoreRefresh, DropExpired;
    hide RevokeFamily, RevokeToken, DenyJti, Presentable, Unseen, RemembersBut, AuthenticateClient, AfterTakeRefresh;
    ConsumedFacts(env, s, id);
    var f := s.consumed[id];
    match ev
    case RefreshGrant(tid, cr, token, t1, t2) =>
      RefreshGrantFrame(env, s, tid, cr, token, t1, t2);
      TakeRemembers(env, s, cr, token, t1, t2, id);
      SameKills(s.tables, AfterTakeRefresh(env, s, cr, token, t1, t2), id, f, ReplayedFamily(env, s, cr, token, t1), Kills(env, s, ev));
    case MismatchRevoke(tid, t2) =>
      CutRemembers(s.tables, s.threads[tid].family, t2, id, f);
      SameKills(s.tables, RevokeFamily(s.tables, s.threads[tid].family, t2), id, f, s.threads[tid].family, Kills(env, s, ev));
    case RevokeOpaque(token, t2) =>
      RevokeRemembers(env, s, token, t2, id);
      SameKills(s.tables, RevokeToken(s.tables, token, t2), id, f, OpaqueFamily(s, token), Kills(env, s, ev));
    case Logout(sid, t2) =>
      CutRemembers(s.tables, sid, t2, id, f);
      SameKills(s.tables, RevokeFamily(s.tables, sid, t2), id, f, sid, Kills(env, s, ev));
  }

  /** The events that leave the refresh tokens alone. */
  lemma QuietStep(env: Env, s: Sys, ev: Event, id: string, f: RefreshEntry)
    requires Enabled(env, s, ev) && (LeavesDenials(ev) || ev.Deny?)
    ensures RemembersBut(s.tables, Apply(env, s, ev).tables, id, f, {})
  {
    hide DoAuthorize, DoCodeGrant, DoRefreshGrant, DoAppGrant, DoSign, DoStoreRefresh, DropExpired, RevokeFamily, RevokeToken, Kills;
    hide Presentable, Unseen, IsDenied;
    match ev
    case AppGrant(tid, cr, scope, jti, t2) => AppGrantFrame(env, s, tid, cr, scope, jti, t2);
    case Sign(tid, jti, t2) => SignFrame(env, s, tid, jti, t2);
    case _ =>
  }

  /** Before its expiry a step forgets a consumed token exactly when it revokes the token's family. */
  lemma UsedStep(env: Env, s: Sys, ev: Event, id: string)
    requires Inv(env, s) && Enabled(env, s, ev) && id in s.consumed && Apply(env, s, ev).clock <= s.consumed[id].expiresAt
    ensures RemembersBut(s.tables, Apply(env, s, ev).tables, id, s.consumed[id], Kills(env, s, ev))
  {
    hide Inv, Apply, Enabled, Kills, RemembersBut;
    StepFrame(env, s, ev);
    if Revokes(ev) {
      CutStep(env, s, ev, id);
    } else {
      NoKills(env, s, ev);
      if LeavesDenials(ev) || ev.Deny? {
        QuietStep(env, s, ev, id, s.consumed[id]);
      } else {
        SweepStep(env, s, ev, id);
      }
    }
  }

  lemma SameUsed(a: Tables, b: Tables, s: Tables, id: string, f: RefreshEntry)
    requires a.used == b.used && (a == s || RemembersBut(s, a, id, f, {}))
    ensures RemembersBut(s, b, id, f, {})
  {
  }

  lemma SameKills(s: Tables, r: Tables, id: string, f: RefreshEntry, family: string, killed: set<string>)
    requires RemembersBut(s, r, id, f, {family}) && f.family != "" && killed == {family} - {""}
    ensures RemembersBut(s, r, id, f, killed)
  {
  }

  lemma AuthorizeRemembers(env: Env, s: Sys, q: AuthorizeRequest, username: string, password: string, i: string, t1: Time, t2: Time,
                           id: string)
    requires id in s.consumed && (id in s.tables.used ==> s.tables.used[id] == s.consumed[id]) && t1 <= s.consumed[id].expiresAt
    ensures RemembersBut(s.tables, DoAuthorize(env, s, q, username, password, i, t1, t2).tables, id, s.consumed[id], {})
  {
    hide Authorize, NewCode, DropExpired;
    SweepRemembers(s.tables, t1, id, s.consumed[id]);
  }

  lemma CodeGrantRemembers(env: Env, s: Sys, tid: nat, cr: Credentials, token: string, redirectUri: string, verifier: string,
                           i: string, t1: Time, t2: Time, id: string)
    requires id in s.consumed && (id in s.tables.used ==> s.tables.used[id] == s.consumed[id]) && t1 <= s.consumed[id].expiresAt
    ensures RemembersBut(s.tables, DoCodeGrant(env, s, tid, cr, token, redirectUri, verifier, i, t1, t2).tables, id, s.consumed[id], {})
  {
    hide AuthenticateClient, DoCodeGrant, DropExpired;
    CodeGrantFrame(env, s, tid, cr, token, redirectUri, verifier, i, t1, t2);
    SweepRemembers(s.tables, t1, id, s.consumed[id]);
  }

  /** The history of redemptions only grows. */
  lemma KeepsConsumed(env: Env, s: Sys, ev: Event, id: string)
    requires Inv(env, s) && Enabled(env, s, ev) && id in s.consumed
    ensures id in Apply(env, s, ev).consumed && Apply(env, s, ev).consumed[id] == s.consumed[id]
  {
    hide Inv, DoRefreshGrant, AuthenticateClient;
    StepFrame(env, s, ev);
    if ev.RefreshGrant? {
      ConsumedFacts(env, s, id);
      RefreshConsumes(env, s, ev.tid, ev.cr, ev.token, ev.t1, ev.t2);
    } else {
      hide Apply;
    }
  }

  /** What a refresh grant that redeems its token leaves behind: the token is consumed, with its entry. */
  lemma RefreshConsumes(env: Env, s: Sys, tid: nat, cr: Credentials, token: string, t1: Time, t2: Time)
    ensures var r := DoRefreshGrant(env, s, tid, cr, token, t1, t2);
            if RefreshYield(env, s, cr, token, t1, t2) == [] then r.consumed == s.consumed
            else && token in s.tables.refresh && r.consumed == s.consumed[token := s.tables.refresh[token]]
                 && token in r.tables.used
  {
    hide AuthenticateClient, RevokeFamily;
    if token == "" || AuthenticateClient(env, cr).None? {
    } else {
      match TakeRefresh(s.tables, token, t1, t2).1
      case Unknown =>
      case Reused =>
      case Redeemed(_) =>
    }
  }

  // ----- over runs -----

  /** Some event of the run revokes the family. */
  ghost predicate KilledIn(env: Env, s: Sys, evs: seq<Event>, family: string)
    requires ValidRun(env, s, evs)
    decreases |evs|
  {
    evs != [] && (family in Kills(env, s, evs[0]) || KilledIn(env, Apply(env, s, evs[0]), evs[1..], family))
  }

  /** Until its expiry a consumed token is remembered, exactly as long as its family is not revoked. */
  lemma {:induction false} UsedRun(env: Env, s: Sys, evs: seq<Event>, id: string)
    requires Inv(env, s) && ValidRun(env, s, evs) && id in s.consumed
    ensures var r := After(env, s, evs);
            && id in r.consumed && r.consumed[id] == s.consumed[id]
            && (r.clock <= s.consumed[id].expiresAt ==>
                  (id in r.tables.used <==> id in s.tables.used && !KilledIn(env, s, evs, s.consumed[id].family)))
    decreases |evs|
  {
    hide Inv, Apply, Enabled, Kills;
    if evs != [] {
      var s1 := Apply(env, s, evs[0]);
      InvStep(env, s, evs[0]);
      KeepsConsumed(env, s, evs[0], id);
      ClockRun(env, s1, evs[1..]);
      if After(env, s, evs).clock <= s.consumed[id].expiresAt {
        UsedStep(env, s, evs[0], id);
      }
      UsedRun(env, s1, evs[1..], id);
    }
  }

  ghost predicate DeniedFrom(tables: Tables, jti: string, from: Time, until: Time) {
    forall t :: from <= t < until ==> IsDenied(tables, jti, t)
  }

  /** What a reported reuse has done: no live token of the family is left, and its registered tokens are denied. */
  lemma ReuseRevokes(env: Env, s: Sys, id: string, t1: Time, t2: Time)
    requires Inv(env, s) && id in s.consumed && s.clock <= t1 <= t2
    ensures var (tables, taken) := TakeRefresh(s.tables, id, t1, t2);
            var family := s.consumed[id].family;
            && !taken.Redeemed?
            && (taken.Reused? <==> id in s.tables.used && t1 <= s.consumed[id].expiresAt)
            && (taken.Reused? ==>
                  && (forall other :: other in tables.refresh ==> tables.refresh[other].family != family)
                  && (forall jti :: jti in s.tables.jtis && s.tables.jtis[jti].family == family ==>
                        DeniedFrom(tables, jti, t2, s.tables.jtis[jti].exp)))
  {
    hide Inv;
    ConsumedFacts(env, s, id);
    var s1 := DropExpired(s.tables, t1);
    if id in s1.used {
      RevocationIsExact(s1, s.consumed[id].family, t2);
      assert forall jti :: jti in s.tables.jtis && t1 <= s.tables.jtis[jti].exp ==>
                             jti in s1.jtis && s1.jtis[jti] == s.tables.jtis[jti];
      hide RevokeFamily;
    }
  }

  /**
   A refresh token is redeemed, anything happens, and it is presented again.  It never yields an entry.
   It is reported as reuse, and its family revoked, exactly when it has not expired and its family has
   not been revoked since it was redeemed; what happened to the family before makes no difference.
   */
  lemma ReplayIsDetected(env: Env, s: Sys, ev: Event, evs: seq<Event>, t1: Time, t2: Time)
    requires Reachable(env, s) && Enabled(env, s, ev) && ev.RefreshGrant? && RefreshYieldOf(env, s, ev) != []
    requires ValidRun(env, Apply(env, s, ev), evs) && After(env, Apply(env, s, ev), evs).clock <= t1 <= t2
    ensures ev.token in s.tables.refresh
    ensures var r := After(env, Apply(env, s, ev), evs);
            var f := s.tables.refresh[ev.token];
            var (tables, taken) := TakeRefresh(r.tables, ev.token, t1, t2);
            && !taken.Redeemed?
            && (taken.Reused? <==> t1 <= f.expiresAt && !KilledIn(env, Apply(env, s, ev), evs, f.family))
            && (taken.Reused? ==>
                  && (forall other :: other in tables.refresh ==> tables.refresh[other].family != f.family)
                  && (forall jti :: jti in r.tables.jtis && r.tables.jtis[jti].family == f.family ==>
                        DeniedFrom(tables, jti, t2, r.tables.jtis[jti].exp)))
  {
    hide Inv, Reachable, TakeRefresh, AuthenticateClient, DoRefreshGrant, KilledIn, DeniedFrom, RefreshYield;
    ReachableInv(env, s);
    RefreshConsumes(env, s, ev.tid, ev.cr, ev.token, ev.t1, ev.t2);
    var s1 := Apply(env, s, ev);
    InvStep(env, s, ev);
    InvRun(env, s1, evs);
    UsedRun(env, s1, evs, ev.token);
    ReuseRevokes(env, After(env, s1, evs), ev.token, t1, t2);
  }
}
