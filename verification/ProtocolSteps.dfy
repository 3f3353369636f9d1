/** Every event keeps the invariant: each is a chain of small changes that keep it. */
module ProtocolSteps {
  import opened Options
  import opened Scopes
  import opened Clients
  import opened Policy
  import opened StoreTables
  import opened Protocol
  import opened ProtocolInvariants

  // ----- small changes -----

  ghost predicate Submap<K, V>(small: map<K, V>, big: map<K, V>) {
    forall k :: k in small ==> k in big && small[k] == big[k]
  }

  /** Entries of the code and refresh tables may go at any time. */
  lemma TablesShrink(env: Env, s: Sys, codes: map<string, AuthCode>, refresh: map<string, RefreshEntry>)
    requires Inv(env, s) && Submap(codes, s.tables.codes) && Submap(refresh, s.tables.refresh)
    ensures CodesInv(env, codes, s.drawn, s.codeLog)
    ensures EntriesFromOrigin(refresh, s.families)
    ensures OneCarrier(refresh, s.threads)
  {
    hide ForeignInv, FamiliesInv, RefreshInv, IssuedInv, JtisInv, CoverageInv, ThreadsOk, PendingAlone, DeniedInv, CodeOk;
    hide OriginOk, FromOrigin, AccessOk, Distinct;
    hide Issuing;
  }

  lemma ClaimBeforeRecord(env: Env, s: Sys)
    requires Inv(env, s)
    ensures forall jti :: jti in s.issued ==> s.issued[jti].claimExp <= s.issued[jti].regExp
  {
    hide ForeignInv, CodesInv, FamiliesInv, EntriesFromOrigin, RefreshInv, OneCarrier, JtisInv, CoverageInv, ThreadsOk;
    hide PendingAlone, DeniedInv, CodeOk, OriginOk, FromOrigin, Distinct;
    hide UserAccessOk, AppAccessOk;
  }

  function Swept(s: Sys, t: Time): Sys {
    s.(clock := t, tables := DropExpired(s.tables, t))
  }

  lemma SweepRefresh(env: Env, s: Sys, t: Time)
    requires Inv(env, s) && s.clock <= t
    ensures RefreshInv(LiveEntries(s.tables.refresh, t), LiveEntries(s.tables.used, t), s.consumed, s.refreshLog, s.drawn)
  {
    hide ForeignInv, CodesInv, FamiliesInv, EntriesFromOrigin, OneCarrier, IssuedInv, JtisInv, CoverageInv, ThreadsOk;
    hide PendingAlone, DeniedInv, CodeOk, OriginOk, FromOrigin, AccessOk, Distinct;
  }

  lemma SweepAccess(env: Env, s: Sys, t: Time)
    requires Inv(env, s) && s.clock <= t
    ensures JtisInv(LiveJtis(s.tables.jtis, t), s.issued)
    ensures CoverageInv(t, s.issued, LiveJtis(s.tables.jtis, t), LiveDenials(s.tables.denied, t))
  {
    hide ForeignInv, CodesInv, FamiliesInv, EntriesFromOrigin, RefreshInv, OneCarrier, IssuedInv, ThreadsOk, PendingAlone;
    hide CodeOk, OriginOk, FromOrigin, AccessOk, Distinct;
    ClaimBeforeRecord(env, s);
  }

  lemma SweepDenied(env: Env, s: Sys, t: Time)
    requires Inv(env, s)
    ensures DeniedInv(LiveDenials(s.tables.denied, t), s.issued, s.drawn, s.threads)
  {
    hide ForeignInv, CodesInv, FamiliesInv, EntriesFromOrigin, RefreshInv, OneCarrier, IssuedInv, JtisInv, CoverageInv;
    hide ThreadsOk, PendingAlone, CodeOk, OriginOk, FromOrigin, AccessOk, Distinct;
  }

  /** A sweep forgets only what has expired, so nothing is lost that matters. */
  lemma SweepKeeps(env: Env, s: Sys, t: Time)
    requires Inv(env, s) && s.clock <= t
    ensures Inv(env, Swept(s, t))
  {
    hide ForeignInv, CodesInv, FamiliesInv, EntriesFromOrigin, RefreshInv, OneCarrier, IssuedInv, JtisInv, CoverageInv;
    hide ThreadsOk, PendingAlone, DeniedInv, CodeOk, OriginOk, FromOrigin, AccessOk, Distinct;
    TablesShrink(env, s, LiveCodes(s.tables.codes, t), LiveEntries(s.tables.refresh, t));
    SweepRefresh(env, s, t);
    SweepAccess(env, s, t);
    SweepDenied(env, s, t);
  }

  function Cut(s: Sys, family: string, t: Time): Sys {
    s.(clock := t, tables := RevokeFamily(s.tables, family, t))
  }

  lemma CutRefresh(env: Env, s: Sys, family: string, t: Time)
    requires Inv(env, s) && s.clock <= t
    ensures var r := Cut(s, family, t);
            RefreshInv(r.tables.refresh, r.tables.used, s.consumed, s.refreshLog, s.drawn)
  {
    hide ForeignInv, CodesInv, FamiliesInv, EntriesFromOrigin, OneCarrier, IssuedInv, JtisInv, CoverageInv, ThreadsOk;
    hide PendingAlone, DeniedInv, CodeOk, OriginOk, FromOrigin, AccessOk, Distinct;
  }

  lemma CutAccess(env: Env, s: Sys, family: string, t: Time)
    requires Inv(env, s) && s.clock <= t
    ensures var r := Cut(s, family, t);
            JtisInv(r.tables.jtis, s.issued) && CoverageInv(t, s.issued, r.tables.jtis, r.tables.denied)
  {
    hide ForeignInv, CodesInv, FamiliesInv, EntriesFromOrigin, RefreshInv, OneCarrier, IssuedInv, ThreadsOk, PendingAlone;
    hide DeniedInv, CodeOk, OriginOk, FromOrigin, AccessOk, Distinct;
    ClaimBeforeRecord(env, s);
  }

  lemma CutDenied(env: Env, s: Sys, family: string, t: Time)
    requires Inv(env, s)
    ensures DeniedInv(RevokeFamily(s.tables, family, t).denied, s.issued, s.drawn, s.threads)
  {
    hide ForeignInv, CodesInv, FamiliesInv, EntriesFromOrigin, RefreshInv, OneCarrier, CoverageInv, PendingAlone, CodeOk;
    hide OriginOk, FromOrigin, AccessOk, Distinct;
    ClaimBeforeRecord(env, s);
  }

  lemma CutKeeps(env: Env, s: Sys, family: string, t: Time)
    requires Inv(env, s) && s.clock <= t
    ensures Inv(env, Cut(s, family, t))
  {
    hide ForeignInv, CodesInv, FamiliesInv, EntriesFromOrigin, RefreshInv, OneCarrier, IssuedInv, JtisInv, CoverageInv;
    hide ThreadsOk, PendingAlone, DeniedInv, CodeOk, OriginOk, FromOrigin, AccessOk, Distinct;
    TablesShrink(env, s, s.tables.codes, RevokeFamily(s.tables, family, t).refresh);
    CutRefresh(env, s, family, t);
    CutAccess(env, s, family, t);
    CutDenied(env, s, family, t);
  }

  lemma LaterKeeps(env: Env, s: Sys, t: Time)
    requires Inv(env, s) && s.clock <= t
    ensures Inv(env, s.(clock := t))
  {
    hide ForeignInv, CodesInv, FamiliesInv, EntriesFromOrigin, OneCarrier, IssuedInv, JtisInv, ThreadsOk, PendingAlone;
    hide DeniedInv, CodeOk, OriginOk, FromOrigin, AccessOk, Distinct;
  }

  function Drawn(s: Sys, id: string): Sys {
    s.(drawn := s.drawn + {id})
  }

  lemma DrawKeeps(env: Env, s: Sys, id: string)
    requires Inv(env, s) && id != ""
    ensures Inv(env, Drawn(s, id))
  {
    hide EntriesFromOrigin, OneCarrier, JtisInv, CoverageInv, PendingAlone, CodeOk, OriginOk, FromOrigin, AccessOk, Distinct;
  }

  function WithThread(s: Sys, tid: nat, pc: Pc): Sys {
    s.(threads := s.threads[tid := pc])
  }

  function Done(s: Sys, tid: nat): Sys {
    s.(threads := s.threads - {tid})
  }

  lemma DoneKeeps(env: Env, s: Sys, tid: nat)
    requires Inv(env, s)
    ensures Inv(env, Done(s, tid))
  {
    hide CodesInv, FamiliesInv, EntriesFromOrigin, RefreshInv, IssuedInv, JtisInv, CoverageInv, CodeOk, OriginOk;
    hide FromOrigin, AccessOk, Distinct;
    hide Issuing, ThreadOk;
  }

  /** Nothing carries the family's right to a refresh token. */
  ghost predicate Idle(s: Sys, family: string) {
    && (forall id :: id in s.tables.refresh ==> s.tables.refresh[id].family != family)
    && (forall tid :: tid in s.threads ==> !Issuing(s.threads[tid], family))
  }

  /** A thread takes a program counter that carries nothing it did not carry before. */
  lemma ThreadKeeps(env: Env, s: Sys, tid: nat, pc: Pc)
    requires Inv(env, s)
    requires ThreadOk(env, s.families, s.issued, s.drawn, pc)
    requires forall f :: Issuing(pc, f) ==>
               (tid in s.threads && Issuing(s.threads[tid], f)) || Idle(s, f)
    requires forall j :: j in s.threads && j != tid ==>
               && (Pending(pc) && NamesJti(s.threads[j]) ==> pc.jti != s.threads[j].jti)
               && (Pending(s.threads[j]) && NamesJti(pc) ==> pc.jti != s.threads[j].jti)
    requires Pending(pc) ==> pc.jti !in s.tables.denied && pc.jti !in s.foreign
    ensures Inv(env, WithThread(s, tid, pc))
  {
    hide CodesInv, FamiliesInv, EntriesFromOrigin, RefreshInv, IssuedInv, JtisInv, CoverageInv, CodeOk, OriginOk;
    hide FromOrigin, AccessOk, Distinct;
    hide ThreadOk;
  }

  // ----- steps that touch one entry -----

  lemma AddCodeKeeps(env: Env, s: Sys, id: string, code: AuthCode)
    requires Inv(env, s) && Unseen(s, id) && CodeOk(env, code)
    ensures Inv(env, Drawn(s, id).(tables := s.tables.(codes := s.tables.codes[id := code])))
  {
    hide ForeignInv, CodesInv, FamiliesInv, EntriesFromOrigin, RefreshInv, OneCarrier, IssuedInv, JtisInv, CoverageInv;
    hide ThreadsOk, PendingAlone, DeniedInv, CodeOk, OriginOk, FromOrigin, AccessOk, Distinct;
    DrawKeeps(env, s, id);
    AddedCode(env, s, id, code);
  }

  lemma AddedCode(env: Env, s: Sys, id: string, code: AuthCode)
    requires Inv(env, s) && Unseen(s, id) && CodeOk(env, code)
    ensures CodesInv(env, s.tables.codes[id := code], s.drawn + {id}, s.codeLog)
  {
    hide ForeignInv, FamiliesInv, EntriesFromOrigin, RefreshInv, OneCarrier, IssuedInv, JtisInv, CoverageInv, ThreadsOk;
    hide PendingAlone, DeniedInv, CodeOk, OriginOk, FromOrigin, AccessOk, Distinct;
  }

  lemma SpendCodeKeeps(env: Env, s: Sys, id: string)
    requires Inv(env, s) && id in s.tables.codes
    ensures var t := s.(tables := s.tables.(codes := s.tables.codes - {id}));
            Inv(env, t) && Inv(env, t.(codeLog := s.codeLog + [id]))
    ensures CodeOk(env, s.tables.codes[id])
  {
    hide ForeignInv, FamiliesInv, EntriesFromOrigin, RefreshInv, OneCarrier, IssuedInv, JtisInv, CoverageInv, ThreadsOk;
    hide PendingAlone, DeniedInv, CodeOk, OriginOk, FromOrigin, AccessOk;
  }

  /** A fresh family starts with no carrier. */
  lemma FamilyKeeps(env: Env, s: Sys, family: string, o: Origin)
    requires Inv(env, s) && Unseen(s, family) && OriginOk(env, o)
    ensures var t := Drawn(s, family).(families := s.families[family := o]);
            Inv(env, t) && Idle(t, family)
  {
    hide ForeignInv, CodesInv, EntriesFromOrigin, RefreshInv, OneCarrier, IssuedInv, JtisInv, CoverageInv, ThreadsOk;
    hide PendingAlone, DeniedInv, CodeOk, OriginOk, FromOrigin, AccessOk, Distinct;
    hide Idle;
    DrawKeeps(env, s, family);
    FamilyEntries(env, s, family, o);
    FamilyTokens(env, s, family, o);
    FamilyIdle(env, s, family);
    SameIdle(s, Drawn(s, family).(families := s.families[family := o]), family);
  }

  lemma FamilyEntries(env: Env, s: Sys, family: string, o: Origin)
    requires Inv(env, s) && Unseen(s, family)
    ensures EntriesFromOrigin(s.tables.refresh, s.families[family := o])
    ensures EntriesFromOrigin(s.consumed, s.families[family := o])
  {
    hide ForeignInv, CodesInv, RefreshInv, OneCarrier, IssuedInv, JtisInv, CoverageInv, ThreadsOk, PendingAlone, DeniedInv;
    hide CodeOk, OriginOk, AccessOk, Distinct;
  }

  lemma FamilyTokens(env: Env, s: Sys, family: string, o: Origin)
    requires Inv(env, s) && Unseen(s, family)
    ensures IssuedInv(env, s.issued, s.families[family := o], s.drawn + {family})
    ensures ThreadsOk(env, s.families[family := o], s.issued, s.drawn + {family}, s.threads)
  {
    hide ForeignInv, CodesInv, EntriesFromOrigin, RefreshInv, OneCarrier, JtisInv, CoverageInv, PendingAlone, DeniedInv;
    hide CodeOk, OriginOk, Distinct;
    hide AppAccessOk;
  }

  lemma FamilyIdle(env: Env, s: Sys, family: string)
    requires Inv(env, s) && Unseen(s, family)
    ensures Idle(s, family)
  {
    hide ForeignInv, CodesInv, RefreshInv, OneCarrier, IssuedInv, JtisInv, CoverageInv, PendingAlone, DeniedInv, CodeOk;
    hide OriginOk, AccessOk, Distinct;
  }

  lemma SameIdle(s: Sys, t: Sys, family: string)
    requires Idle(s, family) && t.tables.refresh == s.tables.refresh && t.threads == s.threads
    ensures Idle(t, family)
  {
  }

  lemma BeginKeeps(env: Env, s: Sys, tid: nat, family: string, o: Origin)
    requires Inv(env, s) && Unseen(s, family) && OriginOk(env, o) && tid !in s.threads
    ensures Inv(env, WithThread(Drawn(s, family).(families := s.families[family := o]), tid,
                                Ready(Ctx(o.code.sub, o.code.clientId, o.code.nonce, family, o.code.scopes))))
  {
    hide Inv, OriginOk, Idle;
    FamilyKeeps(env, s, family, o);
    var t := Drawn(s, family).(families := s.families[family := o]);
    ThreadKeeps(env, t, tid, Ready(Ctx(o.code.sub, o.code.clientId, o.code.nonce, family, o.code.scopes)));
  }

  lemma DropRefreshKeeps(env: Env, s: Sys, id: string)
    requires Inv(env, s) && id in s.tables.refresh
    ensures Inv(env, s.(tables := s.tables.(refresh := s.tables.refresh - {id})))
  {
    hide ForeignInv, CodesInv, FamiliesInv, EntriesFromOrigin, OneCarrier, IssuedInv, JtisInv, CoverageInv, ThreadsOk;
    hide PendingAlone, DeniedInv, CodeOk, OriginOk, FromOrigin, AccessOk, Distinct;
    TablesShrink(env, s, s.tables.codes, s.tables.refresh - {id});
  }

  function Consumed(s: Sys, id: string): Sys
    requires id in s.tables.refresh
  {
    var f := s.tables.refresh[id];
    s.(tables := s.tables.(refresh := s.tables.refresh - {id}, used := s.tables.used[id := f]),
       refreshLog := s.refreshLog + [id], consumed := s.consumed[id := f])
  }

  /** Consuming the family's live token leaves the family without a carrier. */
  lemma ConsumeKeeps(env: Env, s: Sys, id: string)
    requires Inv(env, s) && id in s.tables.refresh
    ensures Inv(env, Consumed(s, id)) && Idle(Consumed(s, id), s.tables.refresh[id].family)
    ensures FromOrigin(s.families, EntryCtx(s.tables.refresh[id]))
  {
    hide ForeignInv, CodesInv, FamiliesInv, RefreshInv, OneCarrier, IssuedInv, JtisInv, CoverageInv, ThreadsOk;
    hide PendingAlone, DeniedInv, CodeOk, OriginOk, FromOrigin, AccessOk, Distinct;
    hide Idle;
    TablesShrink(env, s, s.tables.codes, s.tables.refresh - {id});
    ConsumedRefresh(env, s, id);
    ConsumedIdle(env, s, id);
  }

  lemma ConsumedRefresh(env: Env, s: Sys, id: string)
    requires Inv(env, s) && id in s.tables.refresh
    ensures var t := Consumed(s, id);
            RefreshInv(t.tables.refresh, t.tables.used, t.consumed, t.refreshLog, s.drawn)
  {
    hide ForeignInv, CodesInv, FamiliesInv, EntriesFromOrigin, OneCarrier, IssuedInv, JtisInv, CoverageInv, ThreadsOk;
    hide PendingAlone, DeniedInv, CodeOk, OriginOk, FromOrigin, AccessOk;
  }

  lemma ConsumedIdle(env: Env, s: Sys, id: string)
    requires Inv(env, s) && id in s.tables.refresh
    ensures Idle(Consumed(s, id), s.tables.refresh[id].family)
  {
    hide ForeignInv, CodesInv, FamiliesInv, EntriesFromOrigin, RefreshInv, IssuedInv, JtisInv, CoverageInv, ThreadsOk;
    hide PendingAlone, DeniedInv, CodeOk, OriginOk, FromOrigin, AccessOk, Distinct;
    hide Issuing;
  }

  lemma FreshJti(env: Env, s: Sys, jti: string)
    requires Inv(env, s) && jti !in s.drawn
    ensures forall j :: j in s.threads && NamesJti(s.threads[j]) ==> s.threads[j].jti != jti
  {
    hide ForeignInv, CodesInv, FamiliesInv, EntriesFromOrigin, RefreshInv, OneCarrier, IssuedInv, JtisInv, CoverageInv;
    hide PendingAlone, DeniedInv, CodeOk, OriginOk, FromOrigin, AccessOk, Distinct;
  }

  lemma FreshNotDenied(env: Env, s: Sys, jti: string)
    requires Inv(env, s) && jti !in s.drawn
    ensures jti !in s.tables.denied && jti !in s.foreign
  {
    hide CodesInv, FamiliesInv, EntriesFromOrigin, RefreshInv, OneCarrier, IssuedInv, JtisInv, CoverageInv, ThreadsOk;
    hide PendingAlone, CodeOk, OriginOk, FromOrigin, AccessOk, Distinct;
  }

  /** A request that draws an id for a token nobody has seen. */
  lemma SignKeeps(env: Env, s: Sys, tid: nat, jti: string, pc: Pc)
    requires Inv(env, s) && Unseen(s, jti)
    requires Pending(pc) && pc.jti == jti && ThreadOk(env, s.families, s.issued, s.drawn + {jti}, pc)
    requires forall f :: Issuing(pc, f) ==> tid in s.threads && Issuing(s.threads[tid], f)
    ensures Inv(env, WithThread(Drawn(s, jti), tid, pc))
  {
    hide Inv, ThreadOk;
    FreshJti(env, s, jti);
    FreshNotDenied(env, s, jti);
    DrawKeeps(env, s, jti);
    ThreadKeeps(env, Drawn(s, jti), tid, pc);
  }

  lemma RegisteredToken(env: Env, s: Sys, tid: nat)
    requires Inv(env, s) && tid in s.threads && Pending(s.threads[tid])
    ensures var jti, a := s.threads[tid].jti, s.threads[tid].access;
            && IssuedInv(env, s.issued[jti := a], s.families, s.drawn)
            && DeniedInv(s.tables.denied, s.issued[jti := a], s.drawn, s.threads)
            && JtisInv(s.tables.jtis[jti := JtiRecord(a.regExp, a.sub, a.family)], s.issued[jti := a])
            && CoverageInv(s.clock, s.issued[jti := a], s.tables.jtis[jti := JtiRecord(a.regExp, a.sub, a.family)],
                           s.tables.denied)
  {
    hide ForeignInv, CodesInv, FamiliesInv, EntriesFromOrigin, RefreshInv, OneCarrier, PendingAlone, CodeOk, OriginOk;
    hide FromOrigin, AccessOk, Distinct;
  }

  lemma RegisteredThreads(env: Env, s: Sys, tid: nat)
    requires Inv(env, s) && tid in s.threads && Pending(s.threads[tid])
    ensures ThreadsOk(env, s.families, s.issued[s.threads[tid].jti := s.threads[tid].access], s.drawn, s.threads - {tid})
  {
    hide ForeignInv, CodesInv, FamiliesInv, EntriesFromOrigin, RefreshInv, OneCarrier, IssuedInv, JtisInv, CoverageInv;
    hide DeniedInv, CodeOk, OriginOk, FromOrigin, AccessOk, Distinct;
  }

  lemma SignedOk(env: Env, s: Sys, tid: nat)
    requires Inv(env, s) && tid in s.threads && Pending(s.threads[tid])
    ensures ThreadOk(env, s.families, s.issued, s.drawn, s.threads[tid])
  {
    hide ForeignInv, CodesInv, FamiliesInv, EntriesFromOrigin, RefreshInv, OneCarrier, IssuedInv, JtisInv, CoverageInv;
    hide PendingAlone, DeniedInv, CodeOk, OriginOk, FromOrigin, AccessOk, Distinct;
  }

  lemma RegisterUserKeeps(env: Env, s: Sys, tid: nat)
    requires Inv(env, s) && tid in s.threads && s.threads[tid].Signed?
    ensures Inv(env, DoRegister(s, tid))
  {
    hide ForeignInv, CodesInv, FamiliesInv, EntriesFromOrigin, RefreshInv, OneCarrier, IssuedInv, JtisInv, CoverageInv;
    hide ThreadsOk, PendingAlone, DeniedInv, CodeOk, OriginOk, FromOrigin, AccessOk, Distinct;
    SignedOk(env, s, tid);
    RegisteredToken(env, s, tid);
    RegisteredThreads(env, s, tid);
    RegisteredForeign(env, s, tid);
    RegisteredCarrier(env, s, tid, s.issued[s.threads[tid].jti := s.threads[tid].access]);
    ListedOk(env, s, tid);
  }

  lemma ListedOk(env: Env, s: Sys, tid: nat)
    requires Inv(env, s) && tid in s.threads && s.threads[tid].Signed?
    ensures var p := s.threads[tid];
            ThreadsOk(env, s.families, s.issued[p.jti := p.access], s.drawn, s.threads[tid := Listed(p.ctx)])
  {
    hide ForeignInv, CodesInv, FamiliesInv, EntriesFromOrigin, RefreshInv, OneCarrier, IssuedInv, JtisInv, CoverageInv;
    hide PendingAlone, DeniedInv, CodeOk, OriginOk, FromOrigin, AccessOk, Distinct;
    RegisteredThreads(env, s, tid);
    var p := s.threads[tid];
    var rest := s.threads - {tid};
    assert forall i :: i in s.threads && i != tid ==> i in rest && rest[i] == s.threads[i];
  }

  lemma RegisterAppKeeps(env: Env, s: Sys, tid: nat)
    requires Inv(env, s) && tid in s.threads && s.threads[tid].AppSigned?
    ensures Inv(env, DoRegister(s, tid))
  {
    hide ForeignInv, CodesInv, FamiliesInv, EntriesFromOrigin, RefreshInv, OneCarrier, IssuedInv, JtisInv, CoverageInv;
    hide ThreadsOk, PendingAlone, DeniedInv, CodeOk, OriginOk, FromOrigin, AccessOk, Distinct;
    SignedOk(env, s, tid);
    AppRecord(env, s.threads[tid].access);
    RegisteredToken(env, s, tid);
    RegisteredThreads(env, s, tid);
    RegisteredForeign(env, s, tid);
    DoneKeeps(env, s, tid);
    FewerDenied(s.tables.denied, s.issued[s.threads[tid].jti := s.threads[tid].access], s.drawn, s.threads, tid);
  }

  /** A registered token was pending, so its id is nobody else's. */
  lemma RegisteredForeign(env: Env, s: Sys, tid: nat)
    requires Inv(env, s) && tid in s.threads && Pending(s.threads[tid])
    ensures var p := s.threads[tid];
            && ForeignInv(s.foreign, s.issued[p.jti := p.access], s.drawn, s.threads - {tid})
            && (p.Signed? ==> ForeignInv(s.foreign, s.issued[p.jti := p.access], s.drawn, s.threads[tid := Listed(p.ctx)]))
  {
    hide CodesInv, FamiliesInv, EntriesFromOrigin, RefreshInv, OneCarrier, IssuedInv, JtisInv, CoverageInv, ThreadsOk;
    hide PendingAlone, DeniedInv;
  }

  lemma FewerDenied(denied: map<string, Time>, issued: map<string, Access>, drawn: set<string>, threads: map<nat, Pc>, tid: nat)
    requires DeniedInv(denied, issued, drawn, threads)
    ensures DeniedInv(denied, issued, drawn, threads - {tid})
  {
  }

  lemma AppRecord(env: Env, a: Access)
    ensures forall families :: AccessOk(env, families, a) && a.app ==> a.family == "" && a.sub == a.clientId
  {
  }

  lemma RegisteredCarrier(env: Env, s: Sys, tid: nat, issued: map<string, Access>)
    requires Inv(env, s) && tid in s.threads && s.threads[tid].Signed?
    requires DeniedInv(s.tables.denied, issued, s.drawn, s.threads)
    ensures DeniedInv(s.tables.denied, issued, s.drawn, s.threads[tid := Listed(s.threads[tid].ctx)])
    ensures OneCarrier(s.tables.refresh, s.threads[tid := Listed(s.threads[tid].ctx)])
    ensures PendingAlone(s.threads[tid := Listed(s.threads[tid].ctx)])
  {
    hide ForeignInv, CodesInv, FamiliesInv, EntriesFromOrigin, RefreshInv, IssuedInv, JtisInv, CoverageInv, ThreadsOk;
    hide CodeOk, OriginOk, FromOrigin, AccessOk, Distinct;
  }

  function Stored(s: Sys, tid: nat, id: string, e: RefreshEntry): Sys {
    Done(Drawn(s, id).(tables := s.tables.(refresh := s.tables.refresh[id := e])), tid)
  }

  /** The new refresh token takes over from the request that stores it. */
  lemma StoreKeeps(env: Env, s: Sys, tid: nat, id: string, e: RefreshEntry)
    requires Inv(env, s) && Unseen(s, id) && tid in s.threads && s.threads[tid].Listed?
    requires EntryCtx(e) == s.threads[tid].ctx
    ensures Inv(env, Stored(s, tid, id, e))
  {
    hide ForeignInv, CodesInv, FamiliesInv, EntriesFromOrigin, RefreshInv, OneCarrier, IssuedInv, JtisInv, CoverageInv;
    hide ThreadsOk, PendingAlone, DeniedInv, CodeOk, OriginOk, FromOrigin, AccessOk, Distinct;
    DrawKeeps(env, s, id);
    DoneKeeps(env, Drawn(s, id), tid);
    StoredRefresh(env, s, id, e);
    StoredEntries(env, s, tid, id, e);
    StoredCarrier(env, s, tid, id, e);
  }

  lemma StoredRefresh(env: Env, s: Sys, id: string, e: RefreshEntry)
    requires Inv(env, s) && Unseen(s, id)
    ensures RefreshInv(s.tables.refresh[id := e], s.tables.used, s.consumed, s.refreshLog, s.drawn + {id})
  {
    hide ForeignInv, CodesInv, FamiliesInv, EntriesFromOrigin, OneCarrier, IssuedInv, JtisInv, CoverageInv, ThreadsOk;
    hide PendingAlone, DeniedInv, CodeOk, OriginOk, FromOrigin, AccessOk, Distinct;
  }

  lemma StoredEntries(env: Env, s: Sys, tid: nat, id: string, e: RefreshEntry)
    requires Inv(env, s) && tid in s.threads && s.threads[tid].Listed? && EntryCtx(e) == s.threads[tid].ctx
    ensures EntriesFromOrigin(s.tables.refresh[id := e], s.families)
  {
    hide ForeignInv, CodesInv, FamiliesInv, RefreshInv, OneCarrier, IssuedInv, JtisInv, CoverageInv, PendingAlone;
    hide DeniedInv, CodeOk, OriginOk, FromOrigin, AccessOk, Distinct;
  }

  lemma StoredCarrier(env: Env, s: Sys, tid: nat, id: string, e: RefreshEntry)
    requires Inv(env, s) && tid in s.threads && s.threads[tid].Listed? && EntryCtx(e) == s.threads[tid].ctx
    ensures OneCarrier(s.tables.refresh[id := e], s.threads - {tid})
  {
    hide ForeignInv, CodesInv, FamiliesInv, EntriesFromOrigin, RefreshInv, IssuedInv, JtisInv, CoverageInv, ThreadsOk;
    hide PendingAlone, DeniedInv, CodeOk, OriginOk, FromOrigin, AccessOk, Distinct;
    assert Issuing(s.threads[tid], e.family);
  }

  lemma ViewKeeps(env: Env, s: Sys, tid: nat, jti: string, claimExp: Time, forRevoke: bool)
    requires Inv(env, s) && tid !in s.threads && Presentable(s, jti, claimExp)
    ensures Inv(env, WithThread(Viewed(s, jti, claimExp), tid, Parsed(jti, claimExp, forRevoke)))
  {
    hide Inv;
    NotPending(env, s, jti, claimExp);
    ViewedKeeps(env, s, jti, claimExp);
    ThreadKeeps(env, Viewed(s, jti, claimExp), tid, Parsed(jti, claimExp, forRevoke));
  }

  function Viewed(s: Sys, jti: string, claimExp: Time): Sys {
    Drawn(s, jti).(foreign := if jti in s.issued then s.foreign else s.foreign[jti := claimExp])
  }

  lemma ViewedKeeps(env: Env, s: Sys, jti: string, claimExp: Time)
    requires Inv(env, s) && jti != ""
    requires forall j :: j in s.threads && Pending(s.threads[j]) ==> s.threads[j].jti != jti
    ensures Inv(env, Viewed(s, jti, claimExp))
  {
    hide CodesInv, FamiliesInv, EntriesFromOrigin, RefreshInv, OneCarrier, IssuedInv, JtisInv, CoverageInv, ThreadsOk;
    hide PendingAlone, DeniedInv;
    DrawKeeps(env, s, jti);
  }

  /** A token that can be presented is not one that is still being issued. */
  lemma NotPending(env: Env, s: Sys, jti: string, claimExp: Time)
    requires Inv(env, s) && Presentable(s, jti, claimExp)
    ensures forall j :: j in s.threads && Pending(s.threads[j]) ==> s.threads[j].jti != jti
  {
    hide CodesInv, FamiliesInv, EntriesFromOrigin, RefreshInv, OneCarrier, IssuedInv, JtisInv, CoverageInv, ThreadsOk;
    hide PendingAlone, DeniedInv;
    if jti in s.issued {
      IssuedNotPending(env, s, jti);
    } else if jti !in s.foreign {
      FreshJti(env, s, jti);
    }
  }

  lemma IssuedNotPending(env: Env, s: Sys, jti: string)
    requires Inv(env, s) && jti in s.issued
    ensures forall j :: j in s.threads && Pending(s.threads[j]) ==> s.threads[j].jti != jti
  {
    hide ForeignInv, CodesInv, FamiliesInv, EntriesFromOrigin, RefreshInv, OneCarrier, IssuedInv, JtisInv, CoverageInv;
    hide PendingAlone, DeniedInv, CodeOk, OriginOk, FromOrigin, AccessOk, Distinct;
  }

  lemma ClearKeeps(env: Env, s: Sys, tid: nat)
    requires Inv(env, s) && tid in s.threads && s.threads[tid].Parsed?
    ensures Inv(env, WithThread(s, tid, Cleared(s.threads[tid].jti, s.threads[tid].claimExp)))
  {
    hide CodesInv, FamiliesInv, EntriesFromOrigin, RefreshInv, IssuedInv, JtisInv, CoverageInv, CodeOk, OriginOk;
    hide FromOrigin, AccessOk, Distinct;
  }

  lemma DenyKeeps(env: Env, s: Sys, tid: nat)
    requires Inv(env, s) && tid in s.threads && s.threads[tid].Cleared?
    ensures Inv(env, s.(tables := DenyJti(s.tables, s.threads[tid].jti, s.threads[tid].claimExp)))
  {
    hide ForeignInv, CodesInv, FamiliesInv, EntriesFromOrigin, RefreshInv, OneCarrier, IssuedInv, JtisInv, CodeOk, OriginOk;
    hide FromOrigin, AccessOk, Distinct;
  }

  // ----- the events -----

  lemma AuthorizedCode(env: Env, q: AuthorizeRequest, username: string, password: string, now: Time)
    ensures var r := Authorize(env, q, username, password);
            r.Some? ==> CodeOk(env, NewCode(q, r.value.1, now))
  {
    hide ScopesAllowed, PkceParamsOk;
  }

  lemma AuthorizeKeeps(env: Env, s: Sys, ev: Event)
    requires Inv(env, s) && Enabled(env, s, ev) && ev.AuthorizeEvent?
    ensures Inv(env, Apply(env, s, ev))
  {
    hide Inv, CodeOk, Authorize, NewCode, DropExpired;
    var r := Authorize(env, ev.q, ev.username, ev.password);
    if r.None? {
      LaterKeeps(env, s, ev.t2);
    } else {
      AuthorizedCode(env, ev.q, ev.username, ev.password, ev.t2);
      SweepKeeps(env, s, ev.t1);
      LaterKeeps(env, Swept(s, ev.t1), ev.t2);
      AddCodeKeeps(env, Swept(s, ev.t1).(clock := ev.t2), ev.id, NewCode(ev.q, r.value.1, ev.t2));
    }
  }

  lemma AuthenticatedIsRegistered(env: Env, cr: Credentials)
    ensures var r := AuthenticateClient(env, cr);
            r.Some? ==> env.Find(r.value.clientId) == r
  {
  }

  lemma CodeGrantKeeps(env: Env, s: Sys, ev: Event)
    requires Inv(env, s) && Enabled(env, s, ev) && ev.CodeGrant?
    ensures Inv(env, Apply(env, s, ev))
  {
    hide Inv, CodeOk, AuthenticateClient, RedemptionOk, DropExpired, FromOrigin, Submap;
    hide DoAuthorize, DoRefreshGrant, DoAppGrant, DoSign, DoRegister, DoStoreRefresh, DoCheck, RevokeFamily, RevokeToken, Kills;
    var client := AuthenticateClient(env, ev.cr);
    LaterKeeps(env, s, ev.t2);
    if ev.token != "" && client.Some? {
      AuthenticatedIsRegistered(env, ev.cr);
      SweepKeeps(env, s, ev.t1);
      LaterKeeps(env, Swept(s, ev.t1), ev.t2);
      var s1 := Swept(s, ev.t1).(clock := ev.t2);
      if ev.token in s1.tables.codes {
        SpendCodeKeeps(env, s1, ev.token);
        var code := s1.tables.codes[ev.token];
        var s2 := s1.(tables := s1.tables.(codes := s1.tables.codes - {ev.token}), codeLog := s.codeLog + [ev.token]);
        if ev.t2 <= code.expiresAt && RedemptionOk(env, code, client.value, ev.redirectUri, ev.verifier) {
          MatchingClient(env, code, client.value, ev.redirectUri, ev.verifier);
          BeginKeeps(env, s2, ev.tid, ev.id, Origin(ev.token, code, client.value, ev.redirectUri, ev.verifier));
        }
      }
    }
  }

  lemma MatchingClient(env: Env, code: AuthCode, c: Client, redirectUri: string, verifier: string)
    requires RedemptionOk(env, code, c, redirectUri, verifier)
    ensures c.clientId == code.clientId
  {
  }

  lemma RefreshGrantKeeps(env: Env, s: Sys, ev: Event)
    requires Inv(env, s) && Enabled(env, s, ev) && ev.RefreshGrant?
    ensures Inv(env, Apply(env, s, ev))
  {
    hide Inv, AuthenticateClient, DropExpired, RevokeFamily, FromOrigin, Submap;
    hide DoAuthorize, DoCodeGrant, DoAppGrant, DoSign, DoRegister, DoStoreRefresh, DoCheck, RevokeToken;
    LaterKeeps(env, s, ev.t2);
    if ev.token != "" && AuthenticateClient(env, ev.cr).Some? {
      SweepKeeps(env, s, ev.t1);
      var s1 := Swept(s, ev.t1);
      LaterKeeps(env, s1, ev.t2);
      var s2 := s1.(clock := ev.t2);
      if ev.token in s1.tables.used {
        CutKeeps(env, s1, s1.tables.used[ev.token].family, ev.t2);
        CutForgets(env, s1, ev.token, ev.t2);
      } else if ev.token in s1.tables.refresh {
        var f := s1.tables.refresh[ev.token];
        if ev.t2 > f.expiresAt {
          DropRefreshKeeps(env, s2, ev.token);
        } else {
          RotateKeeps(env, s2, ev.tid, ev.token);
        }
      }
    }
  }

  /** Revoking the family of a remembered token forgets the token. */
  lemma CutForgets(env: Env, s: Sys, id: string, t: Time)
    requires Inv(env, s) && id in s.tables.used
    ensures s.tables.used[id].family != ""
    ensures var r := RevokeFamily(s.tables, s.tables.used[id].family, t); r.used - {id} == r.used
  {
    hide ForeignInv, CodesInv, OneCarrier, IssuedInv, JtisInv, CoverageInv, ThreadsOk, PendingAlone, DeniedInv, CodeOk;
    hide OriginOk, AccessOk, Distinct;
  }

  lemma RotateKeeps(env: Env, s: Sys, tid: nat, id: string)
    requires Inv(env, s) && tid !in s.threads && id in s.tables.refresh
    ensures var f := s.tables.refresh[id];
            && Inv(env, WithThread(Consumed(s, id), tid, Ready(EntryCtx(f))))
            && Inv(env, WithThread(Consumed(s, id), tid, Mismatch(f.family)))
  {
    hide Inv, Idle, FromOrigin;
    ConsumeKeeps(env, s, id);
    var f := s.tables.refresh[id];
    KnownFamily(s.families, EntryCtx(f));
    ThreadKeeps(env, Consumed(s, id), tid, Ready(EntryCtx(f)));
    ThreadKeeps(env, Consumed(s, id), tid, Mismatch(f.family));
  }

  lemma KnownFamily(families: map<string, Origin>, ctx: Ctx)
    requires FromOrigin(families, ctx)
    ensures ctx.family in families
  {
  }

  lemma AppAccessIsOk(env: Env, c: Client, scopes: seq<string>, now: Time)
    requires env.Find(c.clientId) == Some(c) && c.Confidential() && c.AllowsGrant(GRANT_CLIENT_CREDENTIALS)
    requires forall sc :: sc in scopes ==> sc in c.ccScopes
    ensures forall families :: AccessOk(env, families, AppAccess(env, c, scopes, now))
  {
    hide Client.Confidential, Client.AllowsGrant;
  }

  lemma AppGrantKeeps(env: Env, s: Sys, ev: Event)
    requires Inv(env, s) && Enabled(env, s, ev) && ev.AppGrant?
    ensures Inv(env, Apply(env, s, ev))
  {
    hide Inv, AuthenticateClient, ResolveScopes, Client.Confidential, Client.AllowsGrant, AccessOk;
    LaterKeeps(env, s, ev.t2);
    var client := AuthenticateClient(env, ev.cr);
    AuthenticatedIsRegistered(env, ev.cr);
    if client.Some? && client.value.Confidential() && client.value.AllowsGrant(GRANT_CLIENT_CREDENTIALS) {
      var scopes := ResolveScopes(client.value, ev.scope);
      if scopes.Some? {
        NewlyPending(env, s, ev.id);
        AppAccessIsOk(env, client.value, scopes.value, ev.t2);
        SignKeeps(env, s.(clock := ev.t2), ev.tid, ev.id, AppSigned(ev.id, AppAccess(env, client.value, scopes.value, ev.t2)));
      }
    }
  }

  lemma NewlyPending(env: Env, s: Sys, id: string)
    requires Inv(env, s) && Unseen(s, id)
    ensures id !in s.issued
  {
    hide ForeignInv, CodesInv, FamiliesInv, EntriesFromOrigin, RefreshInv, OneCarrier, JtisInv, CoverageInv, ThreadsOk;
    hide PendingAlone, DeniedInv, CodeOk, OriginOk, FromOrigin, AccessOk, Distinct;
  }

  lemma UserAccessIsOk(env: Env, families: map<string, Origin>, ctx: Ctx, now: Time)
    requires FromOrigin(families, ctx) && env.Find(ctx.clientId).Some?
    ensures AccessOk(env, families, UserAccess(env, env.Find(ctx.clientId).value, ctx, now))
  {
  }

  lemma ReadyOk(env: Env, s: Sys, tid: nat)
    requires Inv(env, s) && tid in s.threads && s.threads[tid].Ready?
    ensures FromOrigin(s.families, s.threads[tid].ctx)
  {
    hide ForeignInv, CodesInv, FamiliesInv, EntriesFromOrigin, RefreshInv, OneCarrier, IssuedInv, JtisInv, CoverageInv;
    hide PendingAlone, DeniedInv, CodeOk, OriginOk, FromOrigin, AccessOk, Distinct;
  }

  lemma SignEventKeeps(env: Env, s: Sys, ev: Event)
    requires Inv(env, s) && Enabled(env, s, ev) && ev.Sign?
    ensures Inv(env, Apply(env, s, ev))
  {
    hide Inv, FromOrigin, AccessOk, UserAccess;
    LaterKeeps(env, s, ev.t2);
    var s1 := s.(clock := ev.t2);
    var ctx := s.threads[ev.tid].ctx;
    if env.Find(ctx.clientId).None? {
      DoneKeeps(env, s1, ev.tid);
    } else {
      ReadyOk(env, s, ev.tid);
      NewlyPending(env, s, ev.id);
      UserAccessIsOk(env, s.families, ctx, ev.t2);
      UserAccessFields(env, env.Find(ctx.clientId).value, ctx, ev.t2);
      SignKeeps(env, s1, ev.tid, ev.id, Signed(ctx, ev.id, UserAccess(env, env.Find(ctx.clientId).value, ctx, ev.t2)));
    }
  }

  lemma UserAccessFields(env: Env, c: Client, ctx: Ctx, now: Time)
    ensures var a := UserAccess(env, c, ctx, now); !a.app && a.family == ctx.family && a.sub == ctx.sub
  {
  }

  lemma StoreEventKeeps(env: Env, s: Sys, ev: Event)
    requires Inv(env, s) && Enabled(env, s, ev) && ev.StoreRefresh?
    ensures Inv(env, Apply(env, s, ev))
  {
    hide Inv, DropExpired;
    SweepKeeps(env, s, ev.t1);
    var s1 := Swept(s, ev.t1).(clock := ev.t2);
    LaterKeeps(env, Swept(s, ev.t1), ev.t2);
    StoreKeeps(env, s1, ev.tid, ev.id, NewEntry(env, s.threads[ev.tid].ctx, ev.t2));
  }

  lemma RevokeOpaqueKeeps(env: Env, s: Sys, ev: Event)
    requires Inv(env, s) && Enabled(env, s, ev) && ev.RevokeOpaque?
    ensures Inv(env, Apply(env, s, ev))
  {
    hide Inv, RevokeFamily;
    var s1 := s.(tables := s.tables.(codes := s.tables.codes - {ev.token}));
    ForgetCodeKeeps(env, s, ev.token);
    LaterKeeps(env, s1, ev.t2);
    if ev.token in s.tables.refresh {
      CutKeeps(env, s1, s.tables.refresh[ev.token].family, ev.t2);
      CutDrops(env, s1, ev.token, ev.t2);
    } else if ev.token in s.tables.used {
      CutKeeps(env, s1, s.tables.used[ev.token].family, ev.t2);
    }
  }

  lemma ForgetCodeKeeps(env: Env, s: Sys, id: string)
    requires Inv(env, s)
    ensures Inv(env, s.(tables := s.tables.(codes := s.tables.codes - {id})))
  {
    hide ForeignInv, FamiliesInv, EntriesFromOrigin, RefreshInv, OneCarrier, IssuedInv, JtisInv, CoverageInv, ThreadsOk;
    hide PendingAlone, DeniedInv, CodeOk, OriginOk, FromOrigin, AccessOk, Distinct;
  }

  /** Removing a live token before revoking its family makes no difference. */
  lemma CutDrops(env: Env, s: Sys, id: string, t: Time)
    requires Inv(env, s) && id in s.tables.refresh
    ensures var f := s.tables.refresh[id].family;
            f != "" &&
            RevokeFamily(s.tables.(refresh := s.tables.refresh - {id}), f, t) == RevokeFamily(s.tables, f, t)
  {
    hide RevokeFamily;
    LiveFamily(env, s, id);
    hide Inv;
    DropThenCut(s.tables, id, t);
  }

  lemma LiveFamily(env: Env, s: Sys, id: string)
    requires Inv(env, s) && id in s.tables.refresh
    ensures s.tables.refresh[id].family != ""
  {
    hide ForeignInv, CodesInv, RefreshInv, OneCarrier, IssuedInv, JtisInv, CoverageInv, ThreadsOk, PendingAlone, DeniedInv;
    hide CodeOk, OriginOk, AccessOk;
    assert FromOrigin(s.families, EntryCtx(s.tables.refresh[id]));
  }

  lemma DropThenCut(s: Tables, id: string, t: Time)
    requires id in s.refresh
    ensures var f := s.refresh[id].family;
            f != "" ==> RevokeFamily(s.(refresh := s.refresh - {id}), f, t) == RevokeFamily(s, f, t)
  {
    var f := s.refresh[id].family;
    assert Doomed(s.(refresh := s.refresh - {id}), f, t) == Doomed(s, f, t);
    hide Doomed;
  }

  lemma MismatchKeeps(env: Env, s: Sys, ev: Event)
    requires Inv(env, s) && Enabled(env, s, ev) && ev.MismatchRevoke?
    ensures Inv(env, Apply(env, s, ev))
  {
    hide Inv, RevokeFamily;
    CutKeeps(env, s, s.threads[ev.tid].family, ev.t2);
    DoneKeeps(env, Cut(s, s.threads[ev.tid].family, ev.t2), ev.tid);
  }

  lemma LogoutKeeps(env: Env, s: Sys, ev: Event)
    requires Inv(env, s) && Enabled(env, s, ev) && ev.Logout?
    ensures Inv(env, Apply(env, s, ev))
  {
    hide Inv, RevokeFamily;
    CutKeeps(env, s, ev.sid, ev.t2);
  }

  lemma VerifyKeeps(env: Env, s: Sys, ev: Event)
    requires Inv(env, s) && Enabled(env, s, ev) && (ev.Parse? || ev.Check? || ev.Deny?)
    ensures Inv(env, Apply(env, s, ev))
  {
    hide Inv, IsDenied;
    match ev
    case Parse(tid, jti, claimExp, forRevoke, t2) =>
      LaterKeeps(env, s, t2);
      ViewKeeps(env, s.(clock := t2), tid, jti, claimExp, forRevoke);
    case Check(tid, t2) =>
      LaterKeeps(env, s, t2);
      DoneKeeps(env, s.(clock := t2), tid);
      ClearKeeps(env, s.(clock := t2), tid);
    case Deny(tid) =>
      DenyKeeps(env, s, tid);
      DoneKeeps(env, s.(tables := DenyJti(s.tables, s.threads[tid].jti, s.threads[tid].claimExp)), tid);
  }

  /** Every event keeps the invariant. */
  lemma InvStep(env: Env, s: Sys, ev: Event)
    requires Inv(env, s) && Enabled(env, s, ev)
    ensures Inv(env, Apply(env, s, ev))
  {
    hide Inv;
    match ev
    case AuthorizeEvent(_, _, _, _, _, _) => AuthorizeKeeps(env, s, ev);
    case CodeGrant(_, _, _, _, _, _, _, _) => CodeGrantKeeps(env, s, ev);
    case RefreshGrant(_, _, _, _, _) => RefreshGrantKeeps(env, s, ev);
    case AppGrant(_, _, _, _, _) => AppGrantKeeps(env, s, ev);
    case Sign(_, _, _) => SignEventKeeps(env, s, ev);
    case Register(tid) =>
      if s.threads[tid].Signed? { RegisterUserKeeps(env, s, tid); } else { RegisterAppKeeps(env, s, tid); }
    case StoreRefresh(_, _, _, _) => StoreEventKeeps(env, s, ev);
    case FailedAdd(t2) => SweepKeeps(env, s, t2);
    case Abort(tid) => DoneKeeps(env, s, tid);
    case MismatchRevoke(_, _) => MismatchKeeps(env, s, ev);
    case RevokeOpaque(_, _) => RevokeOpaqueKeeps(env, s, ev);
    case Logout(_, _) => LogoutKeeps(env, s, ev);
    case Parse(_, _, _, _, _) => VerifyKeeps(env, s, ev);
    case Check(_, _) => VerifyKeeps(env, s, ev);
    case Deny(_) => VerifyKeeps(env, s, ev);
    case Tick(t2) => LaterKeeps(env, s, t2);
  }

  /** The invariant holds in every reachable state. */
  lemma {:induction false} InvRun(env: Env, s: Sys, evs: seq<Event>)
    requires Inv(env, s) && ValidRun(env, s, evs)
    ensures Inv(env, After(env, s, evs))
    decreases |evs|
  {
    hide Inv, Apply, Enabled;
    if evs != [] {
      InvStep(env, s, evs[0]);
      InvRun(env, Apply(env, s, evs[0]), evs[1..]);
    }
  }
}
