/**
 The store as the code writes it: a mutex-guarded object whose methods insert into and
 delete from five maps.  Each method is one critical section.
 */
module TokenStore {
  import opened Options
  import opened StoreTables
  import Tab = StoreTables

  /**
   The generic sweep: a range loop that deletes the entries whose value has expired.  The
   order in which the keys come up does not matter.
   */
  method DropWhere<V>(m: map<string, V>, expired: V -> bool) returns (r: map<string, V>)
    ensures r == map id | id in m && !expired(m[id]) :: m[id]
  {
    r := m;
    var todo := m.Keys;
    while todo != {}
      invariant todo <= m.Keys
      invariant r.Keys == set id | id in m && (id in todo || !expired(m[id]))
      invariant forall id :: id in r ==> r[id] == m[id]
      decreases todo
    {
      var id :| id in todo;
      todo := todo - {id};
      if expired(m[id]) {
        r := r - {id};
      }
    }
  }

  method DropCodes(m: map<string, AuthCode>, now: Time) returns (r: map<string, AuthCode>)
    ensures r == LiveCodes(m, now)
  {
    r := DropWhere(m, (c: AuthCode) => now > c.expiresAt);
  }

  method DropEntries(m: map<string, RefreshEntry>, now: Time) returns (r: map<string, RefreshEntry>)
    ensures r == LiveEntries(m, now)
  {
    r := DropWhere(m, (f: RefreshEntry) => now > f.expiresAt);
  }

  method DropJtis(m: map<string, JtiRecord>, now: Time) returns (r: map<string, JtiRecord>)
    ensures r == LiveJtis(m, now)
  {
    r := DropWhere(m, (rec: JtiRecord) => now > rec.exp);
  }

  method DropDenials(m: map<string, Time>, now: Time) returns (r: map<string, Time>)
    ensures r == LiveDenials(m, now)
  {
    r := DropWhere(m, (until: Time) => now > until);
  }

  ghost function Expiries(jtis: map<string, JtiRecord>, gone: set<string>): map<string, Time>
    requires gone <= jtis.Keys
  {
    map jti | jti in gone :: jtis[jti].exp
  }

  lemma DenyOne(jtis: map<string, JtiRecord>, denied: map<string, Time>, gone: set<string>, jti: string)
    requires gone <= jtis.Keys && jti in jtis
    ensures jtis - (gone + {jti}) == (jtis - gone) - {jti}
    ensures denied + Expiries(jtis, gone + {jti}) == (denied + Expiries(jtis, gone))[jti := jtis[jti].exp]
  {
  }

  class Store {
    var codes: map<string, AuthCode>
    var refresh: map<string, RefreshEntry>
    var usedRefresh: map<string, RefreshEntry>
    var accessJti: map<string, JtiRecord>
    var deniedJti: map<string, Time>

    ghost function Contents(): Tables
      reads this
    {
      Tables(codes, refresh, usedRefresh, accessJti, deniedJti)
    }

    constructor ()
      ensures Contents() == EMPTY
    {
      codes, refresh, usedRefresh, accessJti, deniedJti := map[], map[], map[], map[], map[];
    }

    method DropExpiredLocked(now: Time)
      modifies this
      ensures Contents() == Tab.DropExpired(old(Contents()), now)
    {
      codes := DropCodes(codes, now);
      refresh := DropEntries(refresh, now);
      usedRefresh := DropEntries(usedRefresh, now);
      accessJti := DropJtis(accessJti, now);
      deniedJti := DropDenials(deniedJti, now);
    }

    /** The third loop of a revocation: move the family's unexpired jtis to the denylist. */
    method DenyFamilyLocked(family: string, now: Time)
      modifies `accessJti, `deniedJti
      ensures var s, doomed := old(Contents()), Tab.Doomed(old(Contents()), family, now);
              && accessJti == s.jtis - doomed
              && deniedJti == s.denied + Expiries(s.jtis, doomed)
    {
      ghost var s := Contents();
      ghost var doomed := Tab.Doomed(s, family, now);
      var todo := accessJti.Keys;
      while todo != {}
        invariant todo <= s.jtis.Keys && todo <= accessJti.Keys
        invariant accessJti == s.jtis - (doomed - todo)
        invariant deniedJti == s.denied + Expiries(s.jtis, doomed - todo)
        decreases todo
      {
        var jti :| jti in todo;
        var rec := accessJti[jti];
        ghost var gone := doomed - todo;
        todo := todo - {jti};
        if rec.family == family && now < rec.exp {
          assert doomed - todo == gone + {jti};
          DenyOne(s.jtis, s.denied, gone, jti);
          deniedJti := deniedJti[jti := rec.exp];
          accessJti := accessJti - {jti};
        } else {
          assert doomed - todo == gone;
        }
      }
      assert doomed - todo == doomed;
    }

    method RevokeFamilyLocked(family: string, now: Time)
      modifies this
      ensures Contents() == Tab.RevokeFamily(old(Contents()), family, now)
    {
      if family == "" {
        return;
      }
      ghost var goal := Tab.RevokeFamily(Contents(), family, now);
      refresh := DropWhere(refresh, (f: RefreshEntry) => f.family == family);
      assert refresh == goal.refresh;
      usedRefresh := DropWhere(usedRefresh, (f: RefreshEntry) => f.family == family);
      assert usedRefresh == goal.used;
      DenyFamilyLocked(family, now);
    }

    method AddCode(code: AuthCode, ttl: Time, id: string, sweepAt: Time, now: Time)
      modifies this
      ensures Contents() == Tab.AddCode(old(Contents()), code.(expiresAt := now + ttl), id, sweepAt)
    {
      DropExpiredLocked(sweepAt);
      codes := codes[id := code.(expiresAt := now + ttl)];
    }

    method TakeCode(id: string, sweepAt: Time, checkAt: Time) returns (r: Option<AuthCode>)
      modifies this
      ensures (Contents(), r) == Tab.TakeCode(old(Contents()), id, sweepAt, checkAt)
    {
      DropExpiredLocked(sweepAt);
      if id !in codes {
        return None;
      }
      var c := codes[id];
      codes := codes - {id};
      if checkAt > c.expiresAt {
        return None;
      }
      return Some(c);
    }

    method AddRefresh(entry: RefreshEntry, ttl: Time, id: string, sweepAt: Time, now: Time)
      modifies this
      ensures Contents() == Tab.AddRefresh(old(Contents()), entry.(expiresAt := now + ttl), id, sweepAt)
    {
      DropExpiredLocked(sweepAt);
      refresh := refresh[id := entry.(expiresAt := now + ttl)];
    }

    method TakeRefresh(id: string, sweepAt: Time, checkAt: Time) returns (entry: Option<RefreshEntry>, reused: bool)
      modifies this
      ensures Contents() == Tab.TakeRefresh(old(Contents()), id, sweepAt, checkAt).0
      ensures match Tab.TakeRefresh(old(Contents()), id, sweepAt, checkAt).1
              case Redeemed(f) => entry == Some(f) && !reused
              case Reused => entry == None && reused
              case Unknown => entry == None && !reused
    {
      DropExpiredLocked(sweepAt);
      if id in usedRefresh {
        RevokeFamilyLocked(usedRefresh[id].family, checkAt);
        usedRefresh := usedRefresh - {id};
        return None, true;
      }
      if id !in refresh {
        return None, false;
      }
      var f := refresh[id];
      refresh := refresh - {id};
      if checkAt > f.expiresAt {
        return None, false;
      }
      usedRefresh := usedRefresh[id := f];
      return Some(f), false;
    }

    method RegisterJti(jti: string, sub: string, family: string, exp: Time)
      modifies this
      ensures Contents() == Tab.RegisterJti(old(Contents()), jti, JtiRecord(exp, sub, family))
    {
      accessJti := accessJti[jti := JtiRecord(exp, sub, family)];
    }

    method DenyJti(jti: string, until: Time)
      modifies this
      ensures Contents() == Tab.DenyJti(old(Contents()), jti, until)
    {
      deniedJti := deniedJti[jti := until];
    }

    method IsDeniedJti(jti: string, now: Time) returns (denied: bool)
      ensures denied == Tab.IsDenied(Contents(), jti, now)
    {
      denied := jti in deniedJti && now < deniedJti[jti];
    }

    method RevokeToken(id: string, now: Time)
      modifies this
      ensures Contents() == Tab.RevokeToken(old(Contents()), id, now)
    {
      codes := codes - {id};
      if id in refresh {
        var f := refresh[id];
        refresh := refresh - {id};
        RevokeFamilyLocked(f.family, now);
      } else if id in usedRefresh {
        RevokeFamilyLocked(usedRefresh[id].family, now);
      }
    }
  }
}
