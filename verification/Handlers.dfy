/**
 The authorization, token, revocation and logout handlers as the code runs them on the store, one
 critical section after another, with other requests running in between.

 Each call is proved to leave the store exactly as a run of protocol events does in which the
 request's own events are interleaved with whatever the other requests did meanwhile, and that run
 is valid.  So the guarantees that hold over every run of the protocol are guarantees about these
 handlers.
 */
module Handlers {
  import opened Options
  import opened Scopes
  import opened Clients
  import opened Policy
  import opened Answers
  import opened StoreTables
  import opened TokenStore
  import opened Protocol
  import opened ProtocolInvariants
  import opened ProtocolSteps
  import opened ProtocolFrames
  import opened ProtocolTheorems
  import opened Finality
  import opened Provenance

  datatype Reply =
    | Refused(error: string)
    | Tokens(access: Access, refreshToken: Option<string>)

  /**
   What one issuance draws.  `None` is a failure of the random source (for `jti`, or of the signing
   that follows); `idToken` says whether an id_token can be made when one is asked for.
   */
  datatype Draws = Draws(family: Option<string>, jti: Option<string>, idToken: bool, refresh: Option<string>)

  /** The clock readings of one request, in order. */
  datatype Clock = Clock(t1: Time, t2: Time, t3: Time, t4: Time, t5: Time)

  /** What other requests do between two sections of this one, and what they leave in the store. */
  datatype Gap = Gap(evs: seq<Event>, left: Tables)

  /** The three places where the lock is free during a request. */
  datatype Between = Between(first: Gap, second: Gap, third: Gap)

  // ----- runs -----

  /** `evs` is a run from `s` that ends in `t`. */
  ghost predicate Runs(env: Env, s: Sys, evs: seq<Event>, t: Sys) {
    ValidRun(env, s, evs) && After(env, s, evs) == t
  }

  lemma RunsCons(env: Env, s: Sys, ev: Event, evs: seq<Event>, t: Sys)
    requires Enabled(env, s, ev) && Runs(env, Apply(env, s, ev), evs, t)
    ensures Runs(env, s, [ev] + evs, t)
  {
    hide Enabled, Apply;
    assert ([ev] + evs)[1..] == evs;
  }

  lemma RunsOne(env: Env, s: Sys, ev: Event)
    requires Enabled(env, s, ev)
    ensures Runs(env, s, [ev], Apply(env, s, ev))
  {
    hide Enabled, Apply;
    RunsCons(env, s, ev, [], Apply(env, s, ev));
    assert [ev] + [] == [ev];
  }

  lemma RunsTwo(env: Env, s: Sys, a: Event, b: Event)
    requires Enabled(env, s, a) && Enabled(env, Apply(env, s, a), b)
    ensures Runs(env, s, [a, b], Apply(env, Apply(env, s, a), b))
  {
    hide Enabled, Apply;
    RunsOne(env, Apply(env, s, a), b);
    RunsCons(env, s, a, [b], Apply(env, Apply(env, s, a), b));
    assert [a] + [b] == [a, b];
  }

  lemma RunsAppend(env: Env, s: Sys, evs: seq<Event>, more: seq<Event>, t: Sys)
    requires ValidRun(env, s, evs) && Runs(env, After(env, s, evs), more, t)
    ensures Runs(env, s, evs + more, t)
  {
    hide Enabled, Apply;
    RunsJoin(env, s, evs, more);
  }

  // ----- other requests -----

  predicate Others(evs: seq<Event>, tid: nat) {
    forall i :: 0 <= i < |evs| ==> RequestOf(evs[i]) != Some(tid)
  }

  /** Events of other requests leave this one where it is. */
  lemma {:induction false} OthersRun(env: Env, s: Sys, evs: seq<Event>, tid: nat)
    requires ValidRun(env, s, evs) && Others(evs, tid)
    ensures Waits(s, After(env, s, evs), tid)
    decreases |evs|
  {
    hide Apply, Enabled;
    if evs != [] {
      StepFrame(env, s, evs[0]);
      OthersRun(env, Apply(env, s, evs[0]), evs[1..], tid);
    }
  }

  /** The gap is what other requests can do from `s`, and its table what they leave behind. */
  ghost predicate Fits(env: Env, s: Sys, tid: nat, gap: Gap) {
    ValidRun(env, s, gap.evs) && Others(gap.evs, tid) && After(env, s, gap.evs).tables == gap.left
  }

  /** The state when this request gets the lock again. */
  ghost function Meanwhile(env: Env, s: Sys, tid: nat, gap: Gap): (r: Sys)
    requires Fits(env, s, tid, gap)
    ensures Waits(s, r, tid) && r.tables == gap.left
  {
    OthersRun(env, s, gap.evs, tid);
    After(env, s, gap.evs)
  }

  /** The lock is free: other requests change the store. */
  method Unlocked(store: Store, left: Tables)
    modifies store
    ensures store.Contents() == left
  {
    store.codes, store.refresh, store.usedRefresh := left.codes, left.refresh, left.used;
    store.accessJti, store.deniedJti := left.jtis, left.denied;
  }

  // ----- issuing tokens -----

  predicate NoIdToken(ctx: Ctx, d: Draws) {
    OPENID in ctx.scopes && !d.idToken
  }

  /** From `Listed` to the end: store the refresh token. */
  ghost function StoreEvents(ctx: Ctx, tid: nat, d: Draws, k: Clock, b: Between): seq<Event> {
    if NoIdToken(ctx, d) then [Abort(tid)]
    else b.third.evs + if d.refresh.None? then [FailedAdd(k.t4), Abort(tid)] else [StoreRefresh(tid, d.refresh.value, k.t4, k.t5)]
  }

  /** From `Ready` to the end: sign, register, store, with other requests in between. */
  ghost function IssueEvents(env: Env, ctx: Ctx, tid: nat, d: Draws, k: Clock, b: Between): seq<Event> {
    if d.jti.None? || env.Find(ctx.clientId).None? then [Abort(tid)]
    else b.first.evs + ([Sign(tid, d.jti.value, k.t3)] + (b.second.evs + ([Register(tid)] + StoreEvents(ctx, tid, d, k, b))))
  }

  /** The others, the clock and the random source behave, from `Listed` on. */
  ghost predicate ListedFits(env: Env, s: Sys, tid: nat, d: Draws, k: Clock, b: Between)
    requires tid in s.threads && s.threads[tid].Listed?
  {
    NoIdToken(s.threads[tid].ctx, d) ||
    (Fits(env, s, tid, b.third) &&
     var s1 := Meanwhile(env, s, tid, b.third);
     s1.clock <= k.t4 <= k.t5 && (d.refresh.Some? ==> Unseen(s1, d.refresh.value)))
  }

  /** The same from `Signed` on. */
  ghost predicate SignedFits(env: Env, s: Sys, tid: nat, d: Draws, k: Clock, b: Between)
    requires tid in s.threads && s.threads[tid].Signed?
  {
    && Fits(env, s, tid, b.second)
    && ListedFits(env, DoRegister(Meanwhile(env, s, tid, b.second), tid), tid, d, k, b)
  }

  /** The same from `Ready` on. */
  ghost predicate IssueFits(env: Env, s: Sys, tid: nat, d: Draws, k: Clock, b: Between)
    requires tid in s.threads && s.threads[tid].Ready?
  {
    d.jti.None? || env.Find(s.threads[tid].ctx.clientId).None? ||
    (Fits(env, s, tid, b.first) &&
     var s1 := Meanwhile(env, s, tid, b.first);
     s1.clock <= k.t3 && Unseen(s1, d.jti.value) && SignedFits(env, DoSign(env, s1, tid, d.jti.value, k.t3), tid, d, k, b))
  }

  /** What is in the store when the refresh token has been stored, or not. */
  ghost function StoredTables(env: Env, s: Tables, ctx: Ctx, d: Draws, k: Clock, b: Between): Tables {
    if NoIdToken(ctx, d) then s
    else if d.refresh.None? then DropExpired(b.third.left, k.t4)
    else AddRefresh(b.third.left, NewEntry(env, ctx, k.t5), d.refresh.value, k.t4)
  }

  /** What is in the store at the end of an issuance. */
  ghost function IssueTables(env: Env, s: Tables, ctx: Ctx, d: Draws, k: Clock, b: Between): Tables {
    match (d.jti, env.Find(ctx.clientId))
    case (Some(jti), Some(c)) =>
      var record := JtiRecord(UserAccess(env, c, ctx, k.t3).regExp, ctx.sub, ctx.family);
      StoredTables(env, RegisterJti(b.second.left, jti, record), ctx, d, k, b)
    case _ => s
  }

  lemma StoreRuns(env: Env, s: Sys, tid: nat, d: Draws, k: Clock, b: Between)
    requires tid in s.threads && s.threads[tid].Listed? && ListedFits(env, s, tid, d, k, b)
    ensures var ctx := s.threads[tid].ctx;
            && ValidRun(env, s, StoreEvents(ctx, tid, d, k, b))
            && After(env, s, StoreEvents(ctx, tid, d, k, b)).tables == StoredTables(env, s.tables, ctx, d, k, b)
  {
    hide DropExpired, Fits;
    var ctx := s.threads[tid].ctx;
    if NoIdToken(ctx, d) {
      RunsOne(env, s, Abort(tid));
    } else {
      var s1 := Meanwhile(env, s, tid, b.third);
      if d.refresh.None? {
        RunsTwo(env, s1, FailedAdd(k.t4), Abort(tid));
        GapThen(env, s, tid, b.third, [FailedAdd(k.t4), Abort(tid)], Apply(env, Apply(env, s1, FailedAdd(k.t4)), Abort(tid)));
      } else {
        var last := StoreRefresh(tid, d.refresh.value, k.t4, k.t5);
        RunsOne(env, s1, last);
        GapThen(env, s, tid, b.third, [last], Apply(env, s1, last));
      }
    }
  }

  lemma GapThen(env: Env, s: Sys, tid: nat, gap: Gap, evs: seq<Event>, t: Sys)
    requires Fits(env, s, tid, gap) && Runs(env, Meanwhile(env, s, tid, gap), evs, t)
    ensures Runs(env, s, gap.evs + evs, t)
  {
    hide Others;
    RunsAppend(env, s, gap.evs, evs, t);
  }

  lemma GapRuns(env: Env, s: Sys, tid: nat, gap: Gap)
    requires Fits(env, s, tid, gap)
    ensures ValidRun(env, s, gap.evs) && After(env, s, gap.evs) == Meanwhile(env, s, tid, gap)
  {
  }

  lemma RegisterRuns(env: Env, s: Sys, tid: nat, d: Draws, k: Clock, b: Between)
    requires tid in s.threads && s.threads[tid].Signed? && SignedFits(env, s, tid, d, k, b)
    ensures var p := s.threads[tid];
            var evs := b.second.evs + ([Register(tid)] + StoreEvents(p.ctx, tid, d, k, b));
            && ValidRun(env, s, evs)
            && After(env, s, evs).tables ==
               StoredTables(env, RegisterJti(b.second.left, p.jti, JtiRecord(p.access.regExp, p.ctx.sub, p.ctx.family)), p.ctx, d, k, b)
            && (Inv(env, s) ==> p.jti in After(env, s, evs).issued && After(env, s, evs).issued[p.jti] == p.access)
  {
    hide Fits, ListedFits, StoredTables, StoreEvents, Inv, Others;
    var p := s.threads[tid];
    var s1 := Meanwhile(env, s, tid, b.second);
    var s2 := DoRegister(s1, tid);
    StoreRuns(env, s2, tid, d, k, b);
    var rest := StoreEvents(p.ctx, tid, d, k, b);
    RunsCons(env, s1, Register(tid), rest, After(env, s2, rest));
    GapThen(env, s, tid, b.second, [Register(tid)] + rest, After(env, s2, rest));
    if Inv(env, s) {
      GapRuns(env, s, tid, b.second);
      InvRun(env, s, b.second.evs);
      InvStep(env, s1, Register(tid));
      IssuedRun(env, s2, rest, p.jti);
    }
  }

  /** Every way an issuance can go, and whatever comes in between, is a run of the protocol. */
  lemma IssueRuns(env: Env, s: Sys, tid: nat, d: Draws, k: Clock, b: Between)
    requires tid in s.threads && s.threads[tid].Ready? && IssueFits(env, s, tid, d, k, b)
    ensures var ctx := s.threads[tid].ctx;
            && ValidRun(env, s, IssueEvents(env, ctx, tid, d, k, b))
            && After(env, s, IssueEvents(env, ctx, tid, d, k, b)).tables == IssueTables(env, s.tables, ctx, d, k, b)
            && (Inv(env, s) && d.jti.Some? && env.Find(ctx.clientId).Some? ==>
                  IssuedAs(After(env, s, IssueEvents(env, ctx, tid, d, k, b)), d.jti.value,
                           UserAccess(env, env.Find(ctx.clientId).value, ctx, k.t3)))
  {
    hide Fits, SignedFits, StoredTables, StoreEvents, UserAccess, Inv, Others;
    var ctx := s.threads[tid].ctx;
    if d.jti.None? || env.Find(ctx.clientId).None? {
      RunsOne(env, s, Abort(tid));
    } else {
      var s1 := Meanwhile(env, s, tid, b.first);
      var sign := Sign(tid, d.jti.value, k.t3);
      var s2 := DoSign(env, s1, tid, d.jti.value, k.t3);
      RegisterRuns(env, s2, tid, d, k, b);
      var rest := b.second.evs + ([Register(tid)] + StoreEvents(ctx, tid, d, k, b));
      RunsCons(env, s1, sign, rest, After(env, s2, rest));
      GapThen(env, s, tid, b.first, [sign] + rest, After(env, s2, rest));
      if Inv(env, s) {
        GapRuns(env, s, tid, b.first);
        InvRun(env, s, b.first.evs);
        InvStep(env, s1, sign);
      }
    }
  }

  /** The token has been issued under that id. */
  predicate IssuedAs(s: Sys, jti: string, a: Access) {
    jti in s.issued && s.issued[jti] == a
  }

  /** The refresh token is in the store, for the identity, and lives as long as configured. */
  predicate StoredFor(env: Env, ctx: Ctx, d: Draws, k: Clock, s: Tables) {
    && d.refresh.Some? && d.refresh.value in s.refresh
    && s.refresh[d.refresh.value] == RefreshEntry(k.t5 + env.refreshTtl, ctx.sub, ctx.clientId, ctx.nonce, ctx.family, ctx.scopes)
  }

  method IssueTokens(env: Env, store: Store, ctx: Ctx, d: Draws, k: Clock, b: Between) returns (r: Reply)
    modifies store
    ensures store.Contents() == IssueTables(env, old(store.Contents()), ctx, d, k, b)
    ensures r.Tokens? <==> d.jti.Some? && env.Find(ctx.clientId).Some? && d.refresh.Some? && !NoIdToken(ctx, d)
    ensures r.Tokens? ==> r == Tokens(UserAccess(env, env.Find(ctx.clientId).value, ctx, k.t3), d.refresh)
    ensures r.Tokens? ==> StoredFor(env, ctx, d, k, store.Contents())
    ensures r.Tokens? && UsersOk(env.Find(ctx.clientId).value.users) ==>
              UserToken(env, env.Find(ctx.clientId).value, ctx, k.t3, r.access)
  {
    hide DropExpired, UserAccess, UserToken, UsersOk;
    if env.Find(ctx.clientId).Some? && UsersOk(env.Find(ctx.clientId).value.users) {
      UserAccessIs(env, env.Find(ctx.clientId).value, ctx, k.t3);
    }
    var client := env.Find(ctx.clientId);
    if client.None? || d.jti.None? {
      return Refused("server_error");
    }
    var access := UserAccess(env, client.value, ctx, k.t3);
    Unlocked(store, b.second.left);
    store.RegisterJti(d.jti.value, ctx.sub, ctx.family, access.regExp);
    if OPENID in ctx.scopes && !d.idToken {
      return Refused("server_error");
    }
    Unlocked(store, b.third.left);
    if d.refresh.None? {
      store.DropExpiredLocked(k.t4);
      return Refused("server_error");
    }
    store.AddRefresh(NewEntry(env, ctx, k.t5), env.refreshTtl, d.refresh.value, k.t4, k.t5);
    return Tokens(access, d.refresh);
  }

  // ----- the code grant -----

  /** There is always an id that has not been seen. */
  ghost function Spare(s: Sys): (id: string)
    ensures Unseen(s, id)
  {
    assert exists id :: Unseen(s, id) by {
      var id := FreshName(s.drawn);
      assert Unseen(s, id);
    }
    var id :| Unseen(s, id);
    id
  }

  /** The family id is drawn last, so the event of a grant that fails before has any unseen one. */
  ghost function FamilyOf(s: Sys, d: Draws): string {
    if d.family.Some? then d.family.value else Spare(s)
  }

  ghost function CodeGrantStart(env: Env, s: Sys, tid: nat, cr: Credentials, code: string, redirectUri: string,
                                verifier: string, d: Draws, k: Clock): Sys {
    DoCodeGrant(env, s, tid, cr, code, redirectUri, verifier, FamilyOf(s, d), k.t1, k.t2)
  }

  ghost function CodeGrantEvents(env: Env, s: Sys, tid: nat, cr: Credentials, code: string, redirectUri: string,
                                 verifier: string, d: Draws, k: Clock, b: Between): seq<Event> {
    var s1 := CodeGrantStart(env, s, tid, cr, code, redirectUri, verifier, d, k);
    [CodeGrant(tid, cr, code, redirectUri, verifier, FamilyOf(s, d), k.t1, k.t2)] +
    if tid !in s1.threads || !s1.threads[tid].Ready? then []
    else if d.family.None? then [Abort(tid)]
    else IssueEvents(env, s1.threads[tid].ctx, tid, d, k, b)
  }

  /** A new request, with the clock going on and a family id nobody has seen; then as for an issuance. */
  ghost predicate CodeGrantFits(env: Env, s: Sys, tid: nat, cr: Credentials, code: string, redirectUri: string,
                                verifier: string, d: Draws, k: Clock, b: Between) {
    && tid !in s.threads && s.clock <= k.t1 <= k.t2 && (d.family.Some? ==> Unseen(s, d.family.value))
    && var s1 := CodeGrantStart(env, s, tid, cr, code, redirectUri, verifier, d, k);
    tid in s1.threads && s1.threads[tid].Ready? && d.family.Some? ==> IssueFits(env, s1, tid, d, k, b)
  }

  ghost function CtxOf(c: AuthCode, family: string): Ctx {
    Ctx(c.sub, c.clientId, c.nonce, family, c.scopes)
  }

  /** What is in the store at the end of a code grant. */
  ghost function CodeGrantTables(env: Env, s: Tables, cr: Credentials, code: string, redirectUri: string, verifier: string,
                                 d: Draws, k: Clock, b: Between): Tables {
    var client := AuthenticateClient(env, cr);
    if code == "" || client.None? then s else
    var (s1, c) := TakeCode(s, code, k.t1, k.t2);
    if c.None? || !RedemptionOk(env, c.value, client.value, redirectUri, verifier) || d.family.None? then s1
    else IssueTables(env, s1, CtxOf(c.value, d.family.value), d, k, b)
  }

  /** The first event of a code grant: when it leaves a request in flight, and with what. */
  lemma CodeGrantBegins(env: Env, s: Sys, tid: nat, cr: Credentials, code: string, redirectUri: string, verifier: string,
                        d: Draws, k: Clock, b: Between)
    requires tid !in s.threads
    ensures var s1 := CodeGrantStart(env, s, tid, cr, code, redirectUri, verifier, d, k);
            && (tid in s1.threads ==> s1.threads[tid].Ready?)
            && CodeGrantTables(env, s.tables, cr, code, redirectUri, verifier, d, k, b) ==
               if tid in s1.threads && d.family.Some? then IssueTables(env, s1.tables, s1.threads[tid].ctx, d, k, b) else s1.tables
  {
    hide AuthenticateClient, IssueTables, TakeCode, RedemptionOk;
    if code != "" && AuthenticateClient(env, cr).Some? {
      if TakeCode(s.tables, code, k.t1, k.t2).1.Some? {
      }
    }
  }

  /** The token that the request draws an id for is the one its identity and the clock make. */
  predicate IssuesTo(env: Env, ctx: Ctx, d: Draws, k: Clock, r: Sys) {
    d.jti.Some? && env.Find(ctx.clientId).Some? ==>
      IssuedAs(r, d.jti.value, UserAccess(env, env.Find(ctx.clientId).value, ctx, k.t3))
  }

  /** Every way a code grant can go, and whatever comes in between, is a run of the protocol. */
  lemma CodeGrantRuns(env: Env, s: Sys, tid: nat, cr: Credentials, code: string, redirectUri: string, verifier: string,
                      d: Draws, k: Clock, b: Between)
    requires CodeGrantFits(env, s, tid, cr, code, redirectUri, verifier, d, k, b)
    ensures var evs := CodeGrantEvents(env, s, tid, cr, code, redirectUri, verifier, d, k, b);
            && ValidRun(env, s, evs)
            && After(env, s, evs).tables == CodeGrantTables(env, s.tables, cr, code, redirectUri, verifier, d, k, b)
            && var s1 := CodeGrantStart(env, s, tid, cr, code, redirectUri, verifier, d, k);
               Inv(env, s) && tid in s1.threads && s1.threads[tid].Ready? && d.family.Some? ==>
                 IssuesTo(env, s1.threads[tid].ctx, d, k, After(env, s, evs))
  {
    hide CodeGrantTables, IssueTables, IssueEvents, IssueFits, DoCodeGrant, Inv, IssuedAs, UserAccess;
    CodeGrantBegins(env, s, tid, cr, code, redirectUri, verifier, d, k, b);
    var first := CodeGrant(tid, cr, code, redirectUri, verifier, FamilyOf(s, d), k.t1, k.t2);
    var s1 := CodeGrantStart(env, s, tid, cr, code, redirectUri, verifier, d, k);
    if tid !in s1.threads {
      RunsCons(env, s, first, [], s1);
    } else if d.family.None? {
      RunsOne(env, s1, Abort(tid));
      RunsCons(env, s, first, [Abort(tid)], Apply(env, s1, Abort(tid)));
    } else {
      var rest := IssueEvents(env, s1.threads[tid].ctx, tid, d, k, b);
      IssueRuns(env, s1, tid, d, k, b);
      RunsCons(env, s, first, rest, After(env, s1, rest));
      if Inv(env, s) {
        InvStep(env, s, first);
      }
    }
  }

  method ValidateCodeGrant(env: Env, ac: AuthCode, client: Client, redirectUri: string, verifier: string) returns (ok: bool)
    ensures ok <==> RedemptionOk(env, ac, client, redirectUri, verifier)
    ensures ok <==>
              && ac.clientId == client.clientId && redirectUri != "" && redirectUri == ac.redirectUri
              && (ac.challenge == "" ||
                  (VerifierOk(verifier) && ac.challengeMethod in {"", "S256"} && env.s256(verifier) == ac.challenge))
  {
    hide VerifierOk;
    if client.clientId != ac.clientId {
      return false;
    }
    if redirectUri == "" {
      return false;
    }
    if redirectUri != ac.redirectUri {
      return false;
    }
    return VerifyPkce(env, ac.challenge, ac.challengeMethod, verifier);
  }

  /**
   The answer to a code grant: tokens exactly for a client that may redeem the code, when everything could be drawn;
   and then the access token is the user's, and the refresh token is in the store.
   */
  ghost predicate CodeGrantAnswered(env: Env, s: Tables, cr: Credentials, code: string, redirectUri: string, verifier: string,
                                    d: Draws, k: Clock, r: Reply, after: Tables) {
    && (r.Tokens? <==>
        exists c :: CodeGrantOk(env, s, cr, code, redirectUri, verifier, k.t2, c) &&
                    d.family.Some? && d.jti.Some? && d.refresh.Some? && ("openid" in s.codes[code].scopes ==> d.idToken))
    && (r.Tokens? ==>
          && r.refreshToken == d.refresh
          && forall c :: CodeGrantOk(env, s, cr, code, redirectUri, verifier, k.t2, c) ==>
               var ac := s.codes[code];
               var ctx := Ctx(ac.sub, ac.clientId, ac.nonce, d.family.value, ac.scopes);
               UserToken(env, c, ctx, k.t3, r.access) && StoredFor(env, ctx, d, k, after))
  }

  /** What `CodeGrantAnswered` comes to, along the way the handler takes. */
  lemma CodeGrantReplies(env: Env, s: Tables, cr: Credentials, code: string, redirectUri: string, verifier: string,
                         d: Draws, k: Clock)
    requires GoodEnv(env) && k.t1 <= k.t2
    ensures var client, c := AuthenticateClient(env, cr), TakeCode(s, code, k.t1, k.t2).1;
            if code != "" && client.Some? && c.Some? && RedemptionOk(env, c.value, client.value, redirectUri, verifier) && d.family.Some?
            then
              var ctx := CtxOf(c.value, d.family.value);
              && env.Find(ctx.clientId) == client && UsersOk(client.value.users)
              && (forall r: Reply, after: Tables {:trigger CodeGrantAnswered(env, s, cr, code, redirectUri, verifier, d, k, r, after)} ::
                    (r.Tokens? <==> d.jti.Some? && d.refresh.Some? && !NoIdToken(ctx, d)) &&
                    (r.Tokens? ==>
                       r.refreshToken == d.refresh && UserToken(env, client.value, ctx, k.t3, r.access) && StoredFor(env, ctx, d, k, after))
                    ==> CodeGrantAnswered(env, s, cr, code, redirectUri, verifier, d, k, r, after))
            else
              forall e: string, after: Tables :: CodeGrantAnswered(env, s, cr, code, redirectUri, verifier, d, k, Refused(e), after)
  {
    hide AuthenticateClient, StoreTables.TakeCode, CodeGrantOk, GoodEnv, UserToken, UsersOk, StoredFor, VerifyPkce, Env.Find;
    CodeGrantWho(env, s, cr, code, redirectUri, verifier, k.t1, k.t2);
  }

  lemma InOrder(env: Env, s: Sys, tid: nat, cr: Credentials, code: string, redirectUri: string, verifier: string,
                d: Draws, k: Clock, b: Between)
    requires CodeGrantFits(env, s, tid, cr, code, redirectUri, verifier, d, k, b)
    ensures k.t1 <= k.t2 && tid !in s.threads
  {
  }

  /** When the redemption goes through the request goes on with the identity of the code. */
  lemma ReadyToIssue(env: Env, s: Sys, tid: nat, cr: Credentials, code: string, redirectUri: string, verifier: string,
                     d: Draws, k: Clock, b: Between)
    requires tid !in s.threads
    ensures var s1 := CodeGrantStart(env, s, tid, cr, code, redirectUri, verifier, d, k);
            var client, c := AuthenticateClient(env, cr), TakeCode(s.tables, code, k.t1, k.t2).1;
            code != "" && client.Some? && c.Some? && RedemptionOk(env, c.value, client.value, redirectUri, verifier) && d.family.Some? ==>
              tid in s1.threads && s1.threads[tid] == Ready(CtxOf(c.value, d.family.value))
  {
    hide AuthenticateClient, StoreTables.TakeCode, RedemptionOk;
  }

  method HandleCodeGrant(env: Env, store: Store, cr: Credentials, code: string, redirectUri: string, verifier: string,
                         d: Draws, k: Clock, b: Between, ghost s: Sys, ghost tid: nat) returns (r: Reply)
    requires store.Contents() == s.tables && CodeGrantFits(env, s, tid, cr, code, redirectUri, verifier, d, k, b)
    modifies store
    ensures var evs := CodeGrantEvents(env, s, tid, cr, code, redirectUri, verifier, d, k, b);
            ValidRun(env, s, evs) && store.Contents() == After(env, s, evs).tables
    ensures GoodEnv(env) ==> CodeGrantAnswered(env, s.tables, cr, code, redirectUri, verifier, d, k, r, store.Contents())
    ensures Inv(env, s) && r.Tokens? ==>
              d.jti.Some? &&
              IssuedAs(After(env, s, CodeGrantEvents(env, s, tid, cr, code, redirectUri, verifier, d, k, b)), d.jti.value, r.access)
  {
    hide AuthenticateClient, StoreTables.TakeCode, RedemptionOk, JoinScopes, UserRoles, IssueTables, CodeGrantEvents, ValidRun, Inv;
    hide After, CodeGrantFits, GoodEnv, UserToken, UserAccess, UsersOk, DoCodeGrant, IssuedAs, StoredFor, CodeGrantAnswered;
    InOrder(env, s, tid, cr, code, redirectUri, verifier, d, k, b);
    if GoodEnv(env) {
      CodeGrantReplies(env, s.tables, cr, code, redirectUri, verifier, d, k);
    }
    ReadyToIssue(env, s, tid, cr, code, redirectUri, verifier, d, k, b);
    CodeGrantRuns(env, s, tid, cr, code, redirectUri, verifier, d, k, b);
    if code == "" {
      return Refused("invalid_request");
    }
    var client := AuthenticateClient(env, cr);
    if client.None? {
      return Refused("invalid_client");
    }
    var ac := store.TakeCode(code, k.t1, k.t2);
    if ac.None? {
      return Refused("invalid_grant");
    }
    var ok := ValidateCodeGrant(env, ac.value, client.value, redirectUri, verifier);
    if !ok {
      return Refused("invalid_grant");
    }
    if d.family.None? {
      return Refused("server_error");
    }
    var ctx := Ctx(ac.value.sub, ac.value.clientId, ac.value.nonce, d.family.value, ac.value.scopes);
    r := IssueTokens(env, store, ctx, d, k, b);
  }

  // ----- the refresh grant -----

  ghost function RefreshGrantEvents(env: Env, s: Sys, tid: nat, cr: Credentials, token: string, d: Draws, k: Clock,
                                    b: Between): seq<Event> {
    var s1 := DoRefreshGrant(env, s, tid, cr, token, k.t1, k.t2);
    [RefreshGrant(tid, cr, token, k.t1, k.t2)] +
    if tid !in s1.threads then []
    else match s1.threads[tid]
      case Ready(ctx) => IssueEvents(env, ctx, tid, d, k, b)
      case Mismatch(_) => b.first.evs + [MismatchRevoke(tid, k.t3)]
      case _ => []
  }

  /** A new request, with the clock going on; then as for an issuance, or for the revocation of a mismatch. */
  ghost predicate RefreshGrantFits(env: Env, s: Sys, tid: nat, cr: Credentials, token: string, d: Draws, k: Clock, b: Between) {
    && tid !in s.threads && s.clock <= k.t1 <= k.t2
    && var s1 := DoRefreshGrant(env, s, tid, cr, token, k.t1, k.t2);
    && (tid in s1.threads && s1.threads[tid].Ready? ==> IssueFits(env, s1, tid, d, k, b))
    && (tid in s1.threads && s1.threads[tid].Mismatch? ==>
          Fits(env, s1, tid, b.first) && Meanwhile(env, s1, tid, b.first).clock <= k.t3)
  }

  /** What is in the store at the end of a refresh grant. */
  ghost function RefreshGrantTables(env: Env, s: Tables, cr: Credentials, token: string, d: Draws, k: Clock, b: Between): Tables {
    var client := AuthenticateClient(env, cr);
    if token == "" || client.None? then s else
    var (s1, taken) := TakeRefresh(s, token, k.t1, k.t2);
    if !taken.Redeemed? then s1
    else if client.value.clientId != taken.entry.clientId then RevokeFamily(b.first.left, taken.entry.family, k.t3)
    else IssueTables(env, s1, EntryCtx(taken.entry), d, k, b)
  }

  /** The first event of a refresh grant: when it leaves a request in flight, and with what. */
  lemma RefreshGrantBegins(env: Env, s: Sys, tid: nat, cr: Credentials, token: string, d: Draws, k: Clock, b: Between)
    requires tid !in s.threads
    ensures var s1 := DoRefreshGrant(env, s, tid, cr, token, k.t1, k.t2);
            && (tid in s1.threads ==> s1.threads[tid].Ready? || s1.threads[tid].Mismatch?)
            && RefreshGrantTables(env, s.tables, cr, token, d, k, b) ==
               if tid !in s1.threads then s1.tables
               else match s1.threads[tid]
                    case Ready(ctx) => IssueTables(env, s1.tables, ctx, d, k, b)
                    case Mismatch(family) => RevokeFamily(b.first.left, family, k.t3)
                    case _ => s1.tables
  {
    hide AuthenticateClient, IssueTables, TakeRefresh, RevokeFamily, DoRefreshGrant;
    RefreshGrantFrame(env, s, tid, cr, token, k.t1, k.t2);
  }

  /** Every way a refresh grant can go, and whatever comes in between, is a run of the protocol. */
  lemma RefreshGrantRuns(env: Env, s: Sys, tid: nat, cr: Credentials, token: string, d: Draws, k: Clock, b: Between)
    requires RefreshGrantFits(env, s, tid, cr, token, d, k, b)
    ensures var evs := RefreshGrantEvents(env, s, tid, cr, token, d, k, b);
            && ValidRun(env, s, evs)
            && After(env, s, evs).tables == RefreshGrantTables(env, s.tables, cr, token, d, k, b)
            && var s1 := DoRefreshGrant(env, s, tid, cr, token, k.t1, k.t2);
               Inv(env, s) && tid in s1.threads && s1.threads[tid].Ready? ==> IssuesTo(env, s1.threads[tid].ctx, d, k, After(env, s, evs))
  {
    hide DoRefreshGrant, RefreshGrantTables, IssueTables, IssueEvents, IssueFits, RevokeFamily, Kills, Fits, Inv, IssuedAs;
    hide UserAccess;
    RefreshGrantBegins(env, s, tid, cr, token, d, k, b);
    var first := RefreshGrant(tid, cr, token, k.t1, k.t2);
    var s1 := DoRefreshGrant(env, s, tid, cr, token, k.t1, k.t2);
    if tid !in s1.threads {
      RunsCons(env, s, first, [], s1);
    } else if s1.threads[tid].Mismatch? {
      var s2, last := Meanwhile(env, s1, tid, b.first), MismatchRevoke(tid, k.t3);
      RunsOne(env, s2, last);
      GapThen(env, s1, tid, b.first, [last], Apply(env, s2, last));
      RunsCons(env, s, first, b.first.evs + [last], Apply(env, s2, last));
    } else {
      var rest := IssueEvents(env, s1.threads[tid].ctx, tid, d, k, b);
      IssueRuns(env, s1, tid, d, k, b);
      RunsCons(env, s, first, rest, After(env, s1, rest));
      if Inv(env, s) {
        InvStep(env, s, first);
      }
    }
  }

  lemma CutLeavesNone(s: Tables, family: string, t: Time)
    ensures FamilyGone(RevokeFamily(s, family, t), family)
  {
    hide Doomed;
  }

  /**
   The answer to a refresh: tokens exactly for the client that the live token belongs to, when everything could be
   drawn; and then the access token is the user's, and the new refresh token is in the store.  Presenting a token
   that has been redeemed, or somebody else's, leaves no live refresh token of its family.
   */
  ghost predicate RefreshGrantAnswered(env: Env, s: Tables, cr: Credentials, token: string, d: Draws, k: Clock, r: Reply, after: Tables) {
    && (r.Tokens? <==>
        exists c :: RefreshGrantOk(env, s, cr, token, k.t1, k.t2, c) &&
                    d.jti.Some? && d.refresh.Some? && ("openid" in s.refresh[token].scopes ==> d.idToken))
    && (r.Tokens? ==>
          && r.refreshToken == d.refresh
          && forall c :: RefreshGrantOk(env, s, cr, token, k.t1, k.t2, c) ==>
               var f := s.refresh[token];
               var ctx := Ctx(f.sub, f.clientId, f.nonce, f.family, f.scopes);
               UserToken(env, c, ctx, k.t3, r.access) && StoredFor(env, ctx, d, k, after))
    && (forall c :: Proven(env, cr, c) && token != "" && token in s.used && k.t1 <= s.used[token].expiresAt ==>
          r.Refused? && FamilyGone(after, s.used[token].family))
    && (forall c :: Proven(env, cr, c) && token != "" && token in s.refresh &&
                    (token in s.used ==> s.used[token].expiresAt < k.t1) && k.t2 <= s.refresh[token].expiresAt &&
                    s.refresh[token].clientId != c.clientId ==>
          r.Refused? && FamilyGone(after, s.refresh[token].family))
  }

  /** What `RefreshGrantAnswered` comes to, along the way the handler takes. */
  lemma RefreshGrantReplies(env: Env, s: Tables, cr: Credentials, token: string, d: Draws, k: Clock)
    requires GoodEnv(env) && k.t1 <= k.t2
    ensures var client, (s1, taken) := AuthenticateClient(env, cr), TakeRefresh(s, token, k.t1, k.t2);
            if token == "" || client.None? || taken.Unknown? then
              forall e: string, after: Tables :: RefreshGrantAnswered(env, s, cr, token, d, k, Refused(e), after)
            else if taken.Reused? then
              forall e: string :: RefreshGrantAnswered(env, s, cr, token, d, k, Refused(e), s1)
            else if client.value.clientId != taken.entry.clientId then
              forall e: string, after: Tables ::
                FamilyGone(after, taken.entry.family) ==> RefreshGrantAnswered(env, s, cr, token, d, k, Refused(e), after)
            else
              var ctx := EntryCtx(taken.entry);
              && env.Find(ctx.clientId) == client && UsersOk(client.value.users)
              && (forall r: Reply, after: Tables {:trigger RefreshGrantAnswered(env, s, cr, token, d, k, r, after)} ::
                    (r.Tokens? <==> d.jti.Some? && d.refresh.Some? && !NoIdToken(ctx, d)) &&
                    (r.Tokens? ==>
                       r.refreshToken == d.refresh && UserToken(env, client.value, ctx, k.t3, r.access) && StoredFor(env, ctx, d, k, after))
                    ==> RefreshGrantAnswered(env, s, cr, token, d, k, r, after))
  {
    hide AuthenticateClient, StoreTables.TakeRefresh, RefreshGrantOk, GoodEnv, UserToken, UsersOk, StoredFor, Env.Find, Proven;
    hide FamilyGone;
    RefreshGrantWho(env, s, cr, token, k.t1, k.t2);
    if TakeRefresh(s, token, k.t1, k.t2).1.Reused? {
      ReusedCuts(s, token, k.t1, k.t2);
    }
  }

  lemma RefreshInOrder(env: Env, s: Sys, tid: nat, cr: Credentials, token: string, d: Draws, k: Clock, b: Between)
    requires RefreshGrantFits(env, s, tid, cr, token, d, k, b)
    ensures k.t1 <= k.t2 && tid !in s.threads
  {
  }

  /** When the token is redeemed by its client the request goes on with the identity of the entry. */
  lemma ReadyToRefresh(env: Env, s: Sys, tid: nat, cr: Credentials, token: string, k: Clock)
    ensures var s1 := DoRefreshGrant(env, s, tid, cr, token, k.t1, k.t2);
            var client, taken := AuthenticateClient(env, cr), TakeRefresh(s.tables, token, k.t1, k.t2).1;
            token != "" && client.Some? && taken.Redeemed? && client.value.clientId == taken.entry.clientId ==>
              tid in s1.threads && s1.threads[tid] == Ready(EntryCtx(taken.entry))
  {
    hide AuthenticateClient, StoreTables.TakeRefresh, DoRefreshGrant;
    RefreshGrantFrame(env, s, tid, cr, token, k.t1, k.t2);
  }

  method HandleRefreshGrant(env: Env, store: Store, cr: Credentials, token: string, d: Draws, k: Clock, b: Between, ghost s: Sys,
                            ghost tid: nat) returns (r: Reply)
    requires store.Contents() == s.tables && RefreshGrantFits(env, s, tid, cr, token, d, k, b)
    modifies store
    ensures var evs := RefreshGrantEvents(env, s, tid, cr, token, d, k, b);
            ValidRun(env, s, evs) && store.Contents() == After(env, s, evs).tables
    ensures GoodEnv(env) ==> RefreshGrantAnswered(env, s.tables, cr, token, d, k, r, store.Contents())
    ensures Inv(env, s) && r.Tokens? ==>
              d.jti.Some? && IssuedAs(After(env, s, RefreshGrantEvents(env, s, tid, cr, token, d, k, b)), d.jti.value, r.access)
  {
    hide AuthenticateClient, StoreTables.TakeRefresh, RevokeFamily, JoinScopes, UserRoles, IssueTables, RefreshGrantEvents, ValidRun;
    hide After, RefreshGrantFits, GoodEnv, UserToken, UserAccess, UsersOk, DoRefreshGrant, IssuedAs, StoredFor, RefreshGrantAnswered;
    hide Inv, FamilyGone;
    RefreshInOrder(env, s, tid, cr, token, d, k, b);
    if GoodEnv(env) {
      RefreshGrantReplies(env, s.tables, cr, token, d, k);
    }
    ReadyToRefresh(env, s, tid, cr, token, k);
    RefreshGrantRuns(env, s, tid, cr, token, d, k, b);
    if token == "" {
      return Refused("invalid_request");
    }
    var client := AuthenticateClient(env, cr);
    if client.None? {
      return Refused("invalid_client");
    }
    var entry, reused := store.TakeRefresh(token, k.t1, k.t2);
    if entry.None? {
      return Refused("invalid_grant");
    }
    if client.value.clientId != entry.value.clientId {
      Unlocked(store, b.first.left);
      store.RevokeFamilyLocked(entry.value.family, k.t3);
      CutLeavesNone(b.first.left, entry.value.family, k.t3);
      return Refused("invalid_grant");
    }
    var ctx := Ctx(entry.value.sub, entry.value.clientId, entry.value.nonce, entry.value.family, entry.value.scopes);
    r := IssueTokens(env, store, ctx, d, k, b);
  }

  // ----- the client credentials grant -----

  /** The grant goes through, up to its registration. */
  ghost predicate AppGranted(env: Env, s: Sys, tid: nat, cr: Credentials, scope: string, jti: Option<string>, now: Time) {
    jti.Some? && tid in DoAppGrant(env, s, tid, cr, scope, jti.value, now).threads
  }

  lemma AppGrantBegins(env: Env, s: Sys, tid: nat, cr: Credentials, scope: string, jti: string, now: Time)
    requires tid !in s.threads
    ensures var s1 := DoAppGrant(env, s, tid, cr, scope, jti, now);
            var c := AuthenticateClient(env, cr);
            if c.Some? && c.value.Confidential() && c.value.AllowsGrant(GRANT_CLIENT_CREDENTIALS) && ResolveScopes(c.value, scope).Some?
            then tid in s1.threads && s1.threads[tid] == AppSigned(jti, AppAccess(env, c.value, ResolveScopes(c.value, scope).value, now))
            else tid !in s1.threads
  {
    hide AuthenticateClient, ResolveScopes, Client.Confidential, Client.AllowsGrant, AppAccess;
  }

  /**
   The answer to a client credentials grant: a token exactly for a confidential client that may use the grant and
   asks for configured scopes; it is the client's own, and its id is registered outside any family.
   */
  ghost predicate AppGrantAnswered(env: Env, cr: Credentials, scope: string, jti: Option<string>, now: Time, r: Reply, after: Tables) {
    && (r.Tokens? <==> jti.Some? && exists c :: AppGrantOk(env, cr, scope, c))
    && (r.Tokens? ==>
          && r.refreshToken == None
          && forall c :: AppGrantOk(env, cr, scope, c) ==>
               && AppToken(env, c, scope, now, r.access)
               && jti.value in after.jtis && after.jtis[jti.value] == JtiRecord(now + env.accessTtl, c.clientId, ""))
  }

  lemma AppGrantReplies(env: Env, cr: Credentials, scope: string, jti: Option<string>, now: Time)
    requires GoodEnv(env)
    ensures var client := AuthenticateClient(env, cr);
            if client.Some? && client.value.Confidential() && client.value.AllowsGrant(GRANT_CLIENT_CREDENTIALS) &&
               ResolveScopes(client.value, scope).Some? && jti.Some?
            then
              var access := AppAccess(env, client.value, ResolveScopes(client.value, scope).value, now);
              && access.regExp == now + env.accessTtl
              && forall after: Tables ::
                   jti.value in after.jtis && after.jtis[jti.value] == JtiRecord(access.regExp, client.value.clientId, "") ==>
                     AppGrantAnswered(env, cr, scope, jti, now, Tokens(access, None), after)
            else
              forall e: string, after: Tables :: AppGrantAnswered(env, cr, scope, jti, now, Refused(e), after)
  {
    hide AuthenticateClient, ResolveScopes, Client.Confidential, Client.AllowsGrant, GoodEnv, AppGrantOk, AppToken, AppScopes;
    var client := AuthenticateClient(env, cr);
    forall c | AppGrantOk(env, cr, scope, c)
      ensures client == Some(c) && c.Confidential() && c.AllowsGrant(GRANT_CLIENT_CREDENTIALS) && ResolveScopes(c, scope).Some?
    {
      AppGrantIff(env, cr, scope, c);
    }
    if client.Some? {
      AppGrantIff(env, cr, scope, client.value);
      AppAccessIs(env, client.value, scope, now);
    }
  }

  method HandleClientCredentialsGrant(env: Env, store: Store, cr: Credentials, scope: string, jti: Option<string>, now: Time,
                                      gap: Gap, ghost s: Sys, ghost tid: nat) returns (r: Reply)
    requires store.Contents() == s.tables && tid !in s.threads && s.clock <= now && (jti.Some? ==> Unseen(s, jti.value))
    requires AppGranted(env, s, tid, cr, scope, jti, now) ==>
               Fits(env, DoAppGrant(env, s, tid, cr, scope, jti.value, now), tid, gap)
    modifies store
    ensures r.Tokens? <==> AppGranted(env, s, tid, cr, scope, jti, now)
    ensures GoodEnv(env) ==> AppGrantAnswered(env, cr, scope, jti, now, r, store.Contents())
    ensures r.Tokens? ==>
              var evs := [AppGrant(tid, cr, scope, jti.value, now)] + (gap.evs + [Register(tid)]);
              && ValidRun(env, s, evs) && store.Contents() == After(env, s, evs).tables
              && r.access == DoAppGrant(env, s, tid, cr, scope, jti.value, now).threads[tid].access && r.refreshToken == None
    ensures !r.Tokens? ==> store.Contents() == s.tables
  {
    hide AuthenticateClient, ResolveScopes, Client.Confidential, Client.AllowsGrant, JoinScopes, ValidRun, After;
    hide DoAppGrant, Fits;
    hide GoodEnv, AppGrantAnswered, AppToken, AppScopes;
    if GoodEnv(env) {
      AppGrantReplies(env, cr, scope, jti, now);
    }
    if jti.Some? {
      AppGrantBegins(env, s, tid, cr, scope, jti.value, now);
    }
    var client := AuthenticateClient(env, cr);
    if client.None? {
      return Refused("invalid_client");
    }
    if !client.value.Confidential() || !client.value.AllowsGrant(GRANT_CLIENT_CREDENTIALS) {
      return Refused("unauthorized_client");
    }
    var scopes := ResolveScopes(client.value, scope);
    if scopes.None? {
      return Refused("invalid_scope");
    }
    if jti.None? {
      return Refused("server_error");
    }
    AppGrantRuns(env, s, tid, cr, scope, jti.value, now, gap);
    var access := AppAccess(env, client.value, scopes.value, now);
    Unlocked(store, gap.left);
    store.RegisterJti(jti.value, client.value.clientId, "", access.regExp);
    return Tokens(access, None);
  }

  lemma AppGrantRuns(env: Env, s: Sys, tid: nat, cr: Credentials, scope: string, jti: string, now: Time, gap: Gap)
    requires tid !in s.threads && s.clock <= now && Unseen(s, jti) && AppGranted(env, s, tid, cr, scope, Some(jti), now)
    requires Fits(env, DoAppGrant(env, s, tid, cr, scope, jti, now), tid, gap)
    ensures var evs := [AppGrant(tid, cr, scope, jti, now)] + (gap.evs + [Register(tid)]);
            var access := DoAppGrant(env, s, tid, cr, scope, jti, now).threads[tid].access;
            && ValidRun(env, s, evs)
            && After(env, s, evs).tables == RegisterJti(gap.left, jti, JtiRecord(access.regExp, access.clientId, ""))
  {
    hide DoAppGrant, Fits, AppAccess, AuthenticateClient, ResolveScopes, Client.Confidential, Client.AllowsGrant, RegisterJti;
    AppGrantBegins(env, s, tid, cr, scope, jti, now);
    var s1 := DoAppGrant(env, s, tid, cr, scope, jti, now);
    var s2 := Meanwhile(env, s1, tid, gap);
    RunsOne(env, s2, Register(tid));
    GapThen(env, s1, tid, gap, [Register(tid)], Apply(env, s2, Register(tid)));
    RunsCons(env, s, AppGrant(tid, cr, scope, jti, now), gap.evs + [Register(tid)], Apply(env, s2, Register(tid)));
  }

  // ----- authorization, revocation and logout -----

  /** The end of an authorization that the checks have let through or not. */
  method CompleteAuthorize(env: Env, store: Store, q: AuthorizeRequest, username: string, password: string, id: Option<string>,
                           k: Clock, ghost s: Sys) returns (code: Option<string>)
    requires store.Contents() == s.tables && s.clock <= k.t1 <= k.t2 && (id.Some? ==> Unseen(s, id.value))
    modifies store
    ensures GoodEnv(env) ==> (code.Some? <==> id.Some? && exists c :: MayAuthorize(env, c, q, username, password))
    ensures code.Some? ==> code == id
    ensures GoodEnv(env) && code.Some? ==>
              && code.value in store.codes
              && store.codes[code.value] ==
                 AuthCode(k.t2 + 600 * SECOND, username, q.clientId, q.redirectUri, q.challenge, q.challengeMethod, q.nonce,
                          ParseScopes(q.scope))
    ensures code.Some? ==>
              var ev := AuthorizeEvent(q, username, password, id.value, k.t1, k.t2);
              Enabled(env, s, ev) && store.Contents() == Apply(env, s, ev).tables
    ensures Authorize(env, q, username, password).None? ==> store.Contents() == s.tables
    ensures Authorize(env, q, username, password).Some? && id.None? ==>
              Enabled(env, s, FailedAdd(k.t1)) && store.Contents() == Apply(env, s, FailedAdd(k.t1)).tables
  {
    hide Authorize, DropExpired, ParseScopes, GoodEnv, MayAuthorize;
    var who := Authorize(env, q, username, password);
    if GoodEnv(env) {
      forall c
        ensures Authorize(env, q, username, password) == Some((c, username)) <==> MayAuthorize(env, c, q, username, password)
        ensures who.Some? ==> who.value.1 == username
      {
        AuthorizeIff(env, q, username, password, c);
      }
      assert who.Some? ==> MayAuthorize(env, who.value.0, q, username, password);
    }
    if who.None? {
      return None;
    }
    if id.None? {
      store.DropExpiredLocked(k.t1);
      return None;
    }
    store.AddCode(NewCode(q, who.value.1, k.t2), CODE_TTL, id.value, k.t1, k.t2);
    return id;
  }

  /** The state when a presented token that verifies has been looked at and the denylist is asked. */
  ghost function Presented(env: Env, s: Sys, tid: nat, jti: string, claimExp: Time, k: Clock): (r: Sys)
    requires Enabled(env, s, Parse(tid, jti, claimExp, true, k.t1))
    ensures tid in r.threads && r.threads[tid] == Parsed(jti, claimExp, true)
  {
    Apply(env, s, Parse(tid, jti, claimExp, true, k.t1))
  }

  /** The last event of a revocation: deny the token, or revoke it as an opaque one. */
  ghost function LastOfRevoke(tid: nat, token: string, jti: string, k: Clock, b: Between): Event {
    if IsDenied(b.first.left, jti, k.t2) then RevokeOpaque(token, k.t3) else Deny(tid)
  }

  /** The events of a revocation whose token verified with these claims, if it did. */
  ghost function RevokeEvents(tid: nat, token: string, verified: Option<(string, Time)>, k: Clock, b: Between): seq<Event> {
    match verified
    case None => [RevokeOpaque(token, k.t3)]
    case Some((jti, claimExp)) =>
      if jti == "" then []
      else
        [Parse(tid, jti, claimExp, true, k.t1)] +
        (b.first.evs + ([Check(tid, k.t2)] + (b.second.evs + [LastOfRevoke(tid, token, jti, k, b)])))
  }

  /** A new request, a token that can be presented, and the clock going on. */
  ghost predicate RevokeFits(env: Env, s: Sys, tid: nat, verified: Option<(string, Time)>, k: Clock, b: Between) {
    match verified
    case None => s.clock <= k.t3
    case Some((jti, claimExp)) =>
      jti != "" ==>
        && Enabled(env, s, Parse(tid, jti, claimExp, true, k.t1))
        && var s1 := Presented(env, s, tid, jti, claimExp, k);
        && Fits(env, s1, tid, b.first)
        && var s2 := Meanwhile(env, s1, tid, b.first);
        && s2.clock <= k.t2
        && var s3 := DoCheck(s2, tid, k.t2);
        && Fits(env, s3, tid, b.second) && Meanwhile(env, s3, tid, b.second).clock <= k.t3
  }

  /** What is in the store at the end of a revocation. */
  ghost function RevokeTables(s: Tables, token: string, verified: Option<(string, Time)>, k: Clock, b: Between): Tables {
    match verified
    case None => RevokeToken(s, token, k.t3)
    case Some((jti, claimExp)) =>
      if jti == "" then s
      else if IsDenied(b.first.left, jti, k.t2) then RevokeToken(b.second.left, token, k.t3)
      else DenyJti(b.second.left, jti, claimExp)
  }

  lemma CheckRuns(env: Env, s: Sys, tid: nat, token: string, k: Clock, b: Between)
    requires tid in s.threads && s.threads[tid].Parsed? && s.threads[tid].forRevoke && s.clock <= k.t2 && s.tables == b.first.left
    requires var s1 := DoCheck(s, tid, k.t2);
             Fits(env, s1, tid, b.second) && Meanwhile(env, s1, tid, b.second).clock <= k.t3
    ensures var p := s.threads[tid];
            var evs := [Check(tid, k.t2)] + (b.second.evs + [LastOfRevoke(tid, token, p.jti, k, b)]);
            && ValidRun(env, s, evs)
            && After(env, s, evs).tables == if IsDenied(b.first.left, p.jti, k.t2) then RevokeToken(b.second.left, token, k.t3)
                                            else DenyJti(b.second.left, p.jti, p.claimExp)
  {
    hide StoreTables.RevokeToken, Fits, DenyJti, Kills, IsDenied;
    hide Apply, LastOfRevoke;
    var s1, last := DoCheck(s, tid, k.t2), LastOfRevoke(tid, token, s.threads[tid].jti, k, b);
    CheckApplies(env, s, tid, k.t2);
    var s2 := Meanwhile(env, s1, tid, b.second);
    LastApplies(env, s, tid, s2, token, k, b);
    RunsOne(env, s2, last);
    GapThen(env, s1, tid, b.second, [last], Apply(env, s2, last));
    RunsCons(env, s, Check(tid, k.t2), b.second.evs + [last], Apply(env, s2, last));
  }

  lemma CheckApplies(env: Env, s: Sys, tid: nat, t2: Time)
    requires tid in s.threads && s.threads[tid].Parsed? && s.clock <= t2
    ensures Enabled(env, s, Check(tid, t2)) && Apply(env, s, Check(tid, t2)) == DoCheck(s, tid, t2)
  {
    hide DoCheck;
  }

  lemma LastApplies(env: Env, s: Sys, tid: nat, s2: Sys, token: string, k: Clock, b: Between)
    requires tid in s.threads && s.threads[tid].Parsed? && s.threads[tid].forRevoke && s.tables == b.first.left
    requires Waits(DoCheck(s, tid, k.t2), s2, tid) && s2.tables == b.second.left && s2.clock <= k.t3
    ensures var p := s.threads[tid];
            var last := LastOfRevoke(tid, token, p.jti, k, b);
            && Enabled(env, s2, last)
            && Apply(env, s2, last).tables == if IsDenied(b.first.left, p.jti, k.t2) then RevokeToken(b.second.left, token, k.t3)
                                              else DenyJti(b.second.left, p.jti, p.claimExp)
  {
    hide StoreTables.RevokeToken, DenyJti, IsDenied;
  }

  /** Every way a revocation can go, and whatever comes in between, is a run of the protocol. */
  lemma RevokeRuns(env: Env, s: Sys, tid: nat, token: string, verified: Option<(string, Time)>, k: Clock, b: Between)
    requires RevokeFits(env, s, tid, verified, k, b)
    ensures var evs := RevokeEvents(tid, token, verified, k, b);
            ValidRun(env, s, evs) && After(env, s, evs).tables == RevokeTables(s.tables, token, verified, k, b)
  {
    hide StoreTables.RevokeToken, Fits, DenyJti, Kills, IsDenied, Presentable, Unseen, DoCheck, LastOfRevoke;
    match verified
    case None => RunsOne(env, s, RevokeOpaque(token, k.t3));
    case Some((jti, claimExp)) =>
      if jti != "" {
        var s1 := Presented(env, s, tid, jti, claimExp, k);
        var s2 := Meanwhile(env, s1, tid, b.first);
        CheckRuns(env, s2, tid, token, k, b);
        var rest := [Check(tid, k.t2)] + (b.second.evs + [LastOfRevoke(tid, token, jti, k, b)]);
        GapThen(env, s1, tid, b.first, rest, After(env, s2, rest));
        RunsCons(env, s, Parse(tid, jti, claimExp, true, k.t1), b.first.evs + rest, After(env, s2, rest));
      }
  }

  /**
   Revoking a presented token.  `verified` is the id and expiry claim of a token whose signature and
   expiry check out; anything else, and a token already denied, goes to the store as an opaque one.
   */
  method RevokePresentedToken(env: Env, store: Store, token: string, verified: Option<(string, Time)>, k: Clock, b: Between,
                              ghost s: Sys, ghost tid: nat)
    requires store.Contents() == s.tables && RevokeFits(env, s, tid, verified, k, b)
    modifies store
    ensures var evs := RevokeEvents(tid, token, verified, k, b);
            ValidRun(env, s, evs) && store.Contents() == After(env, s, evs).tables
    ensures verified.Some? && verified.value.0 != "" && !IsDenied(b.first.left, verified.value.0, k.t2) ==>
              forall t :: IsDenied(store.Contents(), verified.value.0, t) <==> t < verified.value.1
    ensures verified.None? ==>
              && token !in store.codes
              && (token in s.tables.refresh ==> FamilyGone(store.Contents(), s.tables.refresh[token].family))
              && (token !in s.tables.refresh && token in s.tables.used ==> FamilyGone(store.Contents(), s.tables.used[token].family))
  {
    hide StoreTables.RevokeToken, RevokeEvents, ValidRun, After, RevokeFits;
    RevokeRuns(env, s, tid, token, verified, k, b);
    if verified.None? {
      RevokeTokenIsExact(s.tables, token, k.t3);
    }
    if verified.Some? {
      if verified.value.0 == "" {
        return;
      }
      Unlocked(store, b.first.left);
      var already := store.IsDeniedJti(verified.value.0, k.t2);
      Unlocked(store, b.second.left);
      if !already {
        store.DenyJti(verified.value.0, verified.value.1);
        return;
      }
    }
    store.RevokeToken(token, k.t3);
  }

  /** Logout: the session claim of a verified hint names the family to revoke. */
  method EndSession(env: Env, store: Store, sid: Option<string>, now: Time, ghost s: Sys)
    requires store.Contents() == s.tables && s.clock <= now
    modifies store
    ensures sid.Some? && sid.value != "" ==>
              && Enabled(env, s, Logout(sid.value, now))
              && store.Contents() == Apply(env, s, Logout(sid.value, now)).tables
    ensures sid.None? || sid.value == "" ==> store.Contents() == s.tables
    ensures sid.Some? ==>
              && FamilyGone(store.Contents(), sid.value)
              && (sid.value != "" ==>
                    forall jti :: jti in s.tables.jtis && s.tables.jtis[jti].family == sid.value && now < s.tables.jtis[jti].exp ==>
                      IsDenied(store.Contents(), jti, now))
  {
    hide RevokeFamily;
    if sid.Some? {
      RevocationIsExact(s.tables, sid.value, now);
    }
    if sid.Some? && sid.value != "" {
      store.RevokeFamilyLocked(sid.value, now);
    }
  }
}
