/** When sessions are issued, used, renewed and ended, and what each answer leaves in the tables. */
module NativeUses {
  import opened Options
  import opened NativeTypes
  import opened NativeSpec
  import opened NativeSteps
  import opened NativeInvariant
  import opened NativeRuns
  import opened NativeLogins
  import opened NativeAnswers

  /** Only the given family differs. */
  ghost predicate FamilyBecomes(db: Db, db': Db, f: string, row: Family) {
    db' == db.(families := db.families[f := row])
  }

  /** A session with a lease that has run out is sent to reauthentication as soon as it is asked for. */
  ghost predicate RunOut(s: System, f: string) {
    && f in s.db.families
    && var row := s.db.families[f];
    row.phase == Refreshing && row.leaseExpires <= s.clock && EpochOf(s.db, row.user).number == row.epoch
  }

  ghost predicate Lapsed(s: System, f: string, db': Db, r: Reply) {
    && f in s.db.families && r == Rejected(Unauthorized)
    && FamilyBecomes(s.db, db', f, s.db.families[f].(phase := Reauth, secret := Blank))
  }

  lemma FenceTells(s: System, f: string)
    requires f in s.db.families
    ensures var (db', ok) := Fence(s.db, s.clock, f);
      && (ok <==> Passes(s.db, s.clock, f)) && (ok ==> db' == s.db)
      && (RunOut(s, f) ==> Lapsed(s, f, db', Rejected(Unauthorized)))
      && (!ok && !RunOut(s, f) ==> db' == s.db)
  {
    hide EpochOf;
  }

  // Redemption

  ghost predicate Redeems(s: System, e: Event)
    requires e.Exchange?
  {
    && Proof(e.redeem.transaction) && Proof(e.redeem.code) && Verifier(e.redeem.verifier)
    && Operation(e.redeem.redemption)
    && e.redeem.environment == "canary" && e.redeem.destination == "windows-loopback"
    && e.redeem.transaction in s.db.attempts
    && var row := s.db.attempts[e.redeem.transaction];
    && row.challenge == Sha(Plain(e.redeem.verifier)) && row.codeHash == Sha(Plain(e.redeem.code))
    && row.epoch == Some(EpochOf(s.db, row.user).number)
  }

  /** A first redemption, in the lifetime of the handoff and of the provider session. */
  ghost predicate RedeemsFirst(s: System, e: Event)
    requires e.Exchange?
  {
    && Redeems(s, e)
    && var row := s.db.attempts[e.redeem.transaction];
    && row.phase == Ready && row.handoffExpires.Some? && s.clock < row.handoffExpires.value
    && OpenAttempt(e.redeem.transaction, row.secret).Some?
    && s.clock < OpenAttempt(e.redeem.transaction, row.secret).value.providerExpires
  }

  /** A repetition of the same redemption, in the lifetime of its receipt. */
  ghost predicate RedeemsAgain(s: System, e: Event)
    requires e.Exchange?
  {
    && Redeems(s, e)
    && var row := s.db.attempts[e.redeem.transaction];
    && row.phase == Redeemed && row.redemption == e.redeem.redemption
    && row.receiptExpires.Some? && s.clock < row.receiptExpires.value && row.family in s.db.families
  }

  /** A redemption is answered exactly the first time, or again while the family passes the fence. */
  ghost predicate ExchangeAnswer(s: System, e: Event, db': Db, r: Reply)
    requires e.Exchange?
  {
    && (r.Exchanged? <==>
          || RedeemsFirst(s, e)
          || (RedeemsAgain(s, e) && Passes(s.db, s.clock, s.db.attempts[e.redeem.transaction].family)))
    && (RedeemsFirst(s, e) ==> r.Exchanged? && IssuedFirst(s, e, db', r.result))
    && (RedeemsAgain(s, e) && RunOut(s, s.db.attempts[e.redeem.transaction].family) ==>
          Lapsed(s, s.db.attempts[e.redeem.transaction].family, db', r))
    && (!RedeemsFirst(s, e) && !(RedeemsAgain(s, e) && RunOut(s, s.db.attempts[e.redeem.transaction].family)) ==>
          db' == s.db)
  }

  ghost predicate IssuedFirst(s: System, e: Event, db': Db, result: ExchangeResult)
    requires e.Exchange? && RedeemsFirst(s, e)
  {
    var id, row := e.redeem.transaction, s.db.attempts[e.redeem.transaction];
    var secret, grant := OpenAttempt(id, row.secret).value, result.session;
    && result.user == row.user && result.displayName == secret.displayName
    && grant == Grant(row.user, e.family, 0, row.epoch.value, Access(e.access), Refresh(e.refresh), Revoke(e.revoke),
                      if s.clock + 300 <= secret.providerExpires then s.clock + 300 else secret.providerExpires,
                      secret.displayName)
    && e.family !in s.db.families
    && db' == s.db.(
         families := s.db.families[e.family := Family(
           row.user, row.epoch.value, 0, Active, Sha(Access(e.access)), Sha(Refresh(e.refresh)), Sha(Revoke(e.revoke)),
           grant.expiresAt, Box(ForFamily(e.family), OfFamily(FamilySecret(secret.providerCookies, grant))), "", 0)],
         attempts := s.db.attempts[id := row.(
           phase := Redeemed, redemption := e.redeem.redemption, receiptExpires := Some(s.clock + 60),
           family := e.family, secret := Blank, receipt := Box(ForHandoff(id), OfHandoff(result)))])
  }

  /** A row with newly drawn tokens collides with no other row. */
  lemma FreshTokensFit(s: System, f: string, row: Family, access: string, refresh: string)
    requires FamiliesOk(s) && access !in s.drawn && refresh !in s.drawn
    requires row.accessHash == Sha(Access(access)) && row.refreshHash == Sha(Refresh(refresh))
    requires if f in s.db.families then row.revokeHash == s.db.families[f].revokeHash
             else row.revokeHash.Sha? && row.revokeHash.of.Revoke? && row.revokeHash.of.body !in s.drawn
    ensures FamilyFits(s.db, f, row)
  {
    hide SecretOf, EpochOf;
    forall g | g in s.db.families && g != f
      ensures s.db.families[g].accessHash != row.accessHash && s.db.families[g].refreshHash != row.refreshHash
      ensures s.db.families[g].revokeHash != row.revokeHash
    {
      assert FamilyOk(s, g);
    }
  }

  lemma FirstExchangeAnswers(s: System, e: Event)
    requires e.Exchange? && FamiliesOk(s) && Draws(e) !! s.drawn && e.family !in s.db.families
    requires Redeems(s, e) && s.db.attempts[e.redeem.transaction].phase == Ready
    requires AttemptOk(s, e.redeem.transaction)
    ensures var epoch := s.db.attempts[e.redeem.transaction].epoch.value;
      var (db', r) := FirstExchange(s.db, s.clock, e.redeem, epoch, e.family, e.access, e.refresh, e.revoke);
      && (r.Exchanged? <==> RedeemsFirst(s, e)) && (r.Exchanged? ==> IssuedFirst(s, e, db', r.result))
      && (!r.Exchanged? ==> db' == s.db)
  {
    hide Proof, Verifier, Operation, EpochOf, FamiliesOk, FamilyFits, SecretOf;
    var row := s.db.attempts[e.redeem.transaction];
    if OpenAttempt(e.redeem.transaction, row.secret).Some? {
      var secret := OpenAttempt(e.redeem.transaction, row.secret).value;
      var expires := Min(s.clock + ACCESS_TTL, secret.providerExpires);
      var grant := MintedGrant(
        row.user, e.family, row.epoch.value, e.access, e.refresh, e.revoke, expires, secret.displayName);
      assert e.access in Draws(e) && e.refresh in Draws(e) && e.revoke in Draws(e);
      FreshTokensFit(s, e.family, GrantedRow(grant, secret.providerCookies), e.access, e.refresh);
    }
  }

  lemma ReplayExchangeAnswers(s: System, e: Event)
    requires e.Exchange? && Redeems(s, e) && s.db.attempts[e.redeem.transaction].phase == Redeemed
    requires LinkOk(s, e.redeem.transaction) && AttemptOk(s, e.redeem.transaction)
    ensures var (db', r) := ReplayExchange(s.db, s.clock, e.redeem.transaction, e.redeem.redemption);
      var f := s.db.attempts[e.redeem.transaction].family;
      && (r.Exchanged? <==> RedeemsAgain(s, e) && Passes(s.db, s.clock, f)) && (r.Exchanged? ==> db' == s.db)
      && (RedeemsAgain(s, e) && RunOut(s, f) ==> Lapsed(s, f, db', r))
      && (!(RedeemsAgain(s, e) && RunOut(s, f)) ==> db' == s.db)
  {
    hide Proof, Verifier, Operation, EpochOf, Passes, RunOut, Fence;
    var f := s.db.attempts[e.redeem.transaction].family;
    if f in s.db.families {
      FenceTells(s, f);
      RunOutFails(s, f);
    }
  }

  lemma RunOutFails(s: System, f: string)
    ensures RunOut(s, f) ==> !Passes(s.db, s.clock, f)
  {
  }

  lemma ExchangeAnswers(s: System, e: Event)
    requires e.Exchange? && FamiliesOk(s) && Draws(e) !! s.drawn && e.family !in s.db.families
    requires e.redeem.transaction in s.db.attempts ==>
      AttemptOk(s, e.redeem.transaction) && LinkOk(s, e.redeem.transaction)
    ensures var (db', r) := ExchangeTx(s.db, s.clock, e.redeem, e.family, e.access, e.refresh, e.revoke);
      ExchangeAnswer(s, e, db', r)
  {
    if Redeems(s, e) {
      if s.db.attempts[e.redeem.transaction].phase == Ready { FirstExchangeAnswers(s, e); }
      if s.db.attempts[e.redeem.transaction].phase == Redeemed { ReplayExchangeAnswers(s, e); }
    }
    hide Proof, Verifier, Operation, EpochOf, Passes, RunOut, FirstExchange, ReplayExchange;
    hide FamiliesOk, AttemptOk, LinkOk;
    hide IssuedFirst, Lapsed, OpenAttempt;
  }

  // Endings

  /** A cancellation is accepted exactly with the verifier of the login; it revokes what the login issued. */
  ghost predicate CancelAnswer(s: System, e: Event, db': Db, r: Reply)
    requires e.CancelLogin?
  {
    var id := e.cancel.transaction;
    && (r.Done? <==>
          && Proof(id) && Verifier(e.cancel.verifier) && e.cancel.environment == "canary"
          && e.cancel.destination == "windows-loopback" && id in s.db.attempts
          && s.db.attempts[id].challenge == Sha(Plain(e.cancel.verifier)))
    && (r.Done? ==>
          && var row := s.db.attempts[id];
          && (row.family != "" ==> row.family in s.db.families)
          && db' == s.db.(
               attempts := s.db.attempts[id := row.(phase := Cancelled, secret := Blank)],
               families := if row.family == "" then s.db.families
                           else s.db.families[row.family :=
                                  s.db.families[row.family].(phase := Revoked, secret := Blank)]))
    && (!r.Done? ==> db' == s.db)
  }

  lemma CancelAnswers(s: System, e: Event)
    requires e.CancelLogin? && (e.cancel.transaction in s.db.attempts ==> LinkOk(s, e.cancel.transaction))
    ensures var (db', r) := CancelTx(s.db, e.cancel); CancelAnswer(s, e, db', r)
  {
    hide Proof, Verifier;
  }

  ghost predicate RevokeAnswer(s: System, e: Event, db': Db, r: Reply)
    requires e.RevokeSession?
  {
    && (r.Done? <==> e.token.Revoke? && Proof(e.token.body) && exists f :: HasRevoke(s.db, Sha(e.token), f))
    && (r.Done? ==> forall f :: HasRevoke(s.db, Sha(e.token), f) ==>
          FamilyBecomes(s.db, db', f, s.db.families[f].(phase := Revoked, secret := Blank)))
    && (!r.Done? ==> db' == s.db)
  }

  lemma RevokeAnswers(s: System, e: Event)
    requires e.RevokeSession? && FamiliesOk(s)
    ensures var (db', r) := RevokeTx(s.db, e.token); RevokeAnswer(s, e, db', r)
  {
    hide Proof, FamilyOk;
  }

  // Uses

  /** The session named by the reference: it passes the fence, and hash, generation, epoch and expiry match. */
  ghost predicate Honoured(s: System, ref: SessionRef) {
    && Passes(s.db, s.clock, ref.family)
    && var row := s.db.families[ref.family];
    && row.accessHash == ref.accessHash && row.generation == ref.generation && row.epoch == ref.epoch
    && s.clock < row.expiresAt
  }

  lemma ReferencedAnswers(s: System, ref: SessionRef)
    requires ref.family in s.db.families ==> FamilyOk(s, ref.family)
    ensures var (db', r) := ReferencedTx(s.db, s.clock, ref);
      && (r.Opened? || r == Rejected(Unauthorized))
      && (r.Opened? <==> Honoured(s, ref))
      && (r.Opened? ==> OpenFamily(ref.family, s.db.families[ref.family].secret) == Some(r.secret) && db' == s.db)
      && (RunOut(s, ref.family) ==> Lapsed(s, ref.family, db', r))
      && (!RunOut(s, ref.family) ==> db' == s.db)
  {
    hide EpochOf, Fence, RunOut, Drawn;
    RunOutFails(s, ref.family);
    if ref.family in s.db.families { FenceTells(s, ref.family); } else { UnknownIsNotRunOut(s, ref.family); }
  }

  lemma UnknownIsNotRunOut(s: System, f: string)
    requires f !in s.db.families
    ensures !RunOut(s, f)
  {
  }

  ghost predicate RecheckBegins(s: System, e: Event, db': Db, r: Reply)
    requires e.BeginRecheck?
  {
    var ref := e.reference;
    && (r.Waiting? <==> Honoured(s, ref))
    && (r.Waiting? ==>
          && r.call.RecheckCall? && r.call.reference == ref && db' == s.db
          && OpenFamily(ref.family, s.db.families[ref.family].secret) == Some(r.call.secret))
    && (RunOut(s, ref.family) ==> Lapsed(s, ref.family, db', r))
    && (!RunOut(s, ref.family) ==> db' == s.db)
  }

  lemma BeginRecheckAnswers(s: System, e: Event)
    requires e.BeginRecheck? && (e.reference.family in s.db.families ==> FamilyOk(s, e.reference.family))
    ensures var (db', r) := BeginRecheckTx(s.db, s.clock, e.reference); RecheckBegins(s, e, db', r)
  {
    hide ReferencedTx, Honoured, RunOut, FamilyOk, OpenFamily, FamilyBecomes;
    ReferencedAnswers(s, e.reference);
    HonouredIsThere(s, e.reference);
  }

  lemma HonouredIsThere(s: System, ref: SessionRef)
    ensures Honoured(s, ref) ==> ref.family in s.db.families
  {
  }

  /** A recheck admits exactly the user of the family, if the provider names that user and the reference is
      honoured at the end as well. */
  ghost predicate RecheckEnds(s: System, e: Event, db': Db, r: Reply)
    requires e.FinishRecheck? && e.call.RecheckCall? && e.call.reference.family in s.db.families
  {
    var ref := e.call.reference;
    var same := e.principal == Some(s.db.families[ref.family].user);
    && (forall u :: r == Admitted(u) <==> e.principal == Some(u) && same && Honoured(s, ref))
    && (same && RunOut(s, ref.family) ==> Lapsed(s, ref.family, db', r))
    && (!(same && RunOut(s, ref.family)) ==> db' == s.db)
  }

  lemma FinishRecheckAnswers(s: System, e: Event)
    requires e.FinishRecheck? && e.call.RecheckCall? && UserKnown(s.db, e.call) && FamilyOk(s, e.call.reference.family)
    ensures var (db', r) := FinishRecheckTx(s.db, s.clock, e.call, e.principal); RecheckEnds(s, e, db', r)
  {
    hide ReferencedTx, Honoured, RunOut, FamilyOk, OpenFamily, FamilyBecomes;
    ReferencedAnswers(s, e.call.reference);
  }

  // Renewals

  ghost predicate WellFormedRefresh(e: Event)
    requires e.BeginRefresh?
  {
    e.token.Refresh? && Proof(e.token.body) && Operation(e.rotate.operation) && e.rotate.generation < U64_MAX
  }

  /** The family the request is about: that of its receipt, or the one with its token. */
  ghost predicate Refreshes(s: System, e: Event, f: string)
    requires e.BeginRefresh?
  {
    && WellFormedRefresh(e) && f in s.db.families
    && if KeyOf(e) in s.db.receipts then s.db.receipts[KeyOf(e)].family == f
       else s.db.families[f].refreshHash == Sha(e.token)
  }

  /** A renewal is begun exactly for the active family of the token, on its generation and its user's epoch,
      and is then on lease for thirty seconds; a receipt is replayed exactly in its lifetime, past the fence;
      a family on lease is unavailable until the lease runs out. */
  ghost predicate RefreshBegins(s: System, e: Event, db': Db, r: Reply)
    requires e.BeginRefresh?
  {
    && (forall f :: Refreshes(s, e, f) ==> RefreshOf(s, e, f, db', r))
    && ((forall f :: !Refreshes(s, e, f)) ==> r == Rejected(Unauthorized) && db' == s.db)
  }

  ghost predicate RefreshOf(s: System, e: Event, f: string, db': Db, r: Reply)
    requires e.BeginRefresh? && f in s.db.families
  {
    var row, key := s.db.families[f], KeyOf(e);
    if RunOut(s, f) then Lapsed(s, f, db', r)
    else if !Passes(s.db, s.clock, f) then r == Rejected(Unauthorized) && db' == s.db
    else if key in s.db.receipts then
      && db' == s.db
      && if s.clock < s.db.receipts[key].expiresAt
         then r.Granted? && OpenReceipt(key, s.db.receipts[key].result) == Some(r.grant)
         else r == Rejected(Unauthorized)
    else if row.generation != e.rotate.generation then r == Rejected(Unauthorized) && db' == s.db
    else if row.phase == Refreshing then r == Rejected(Unavailable) && db' == s.db
    else
      && r.Waiting? && r.call.RefreshCall? && r.call.family == f && r.call.row == row && r.call.lease == e.lease
      && r.call.key == ReceiptKey(Sha(e.token), e.rotate.operation, e.rotate.generation)
      && OpenFamily(f, row.secret) == Some(r.call.familySecret)
      && FamilyBecomes(s.db, db', f, row.(phase := Refreshing, lease := e.lease, leaseExpires := s.clock + 30))
  }

  lemma ReplayRefreshAnswers(s: System, e: Event, f: string)
    requires e.BeginRefresh? && KeyOf(e) in s.db.receipts && ReceiptOk(s, KeyOf(e)) && Refreshes(s, e, f)
    ensures var (db', r) := ReplayRefresh(s.db, s.clock, KeyOf(e)); RefreshOf(s, e, f, db', r)
  {
    hide EpochOf, Fence, RunOut, Passes, Proof, Operation, Drawn;
    FenceTells(s, f);
    RunOutFails(s, f);
  }

  lemma FirstRefreshAnswers(s: System, e: Event, f: string)
    requires e.BeginRefresh? && KeyOf(e) !in s.db.receipts && Refreshes(s, e, f) && FamiliesOk(s)
    ensures var (db', r) := BeginRefreshTx(s.db, s.clock, e.token, e.rotate, e.lease); RefreshOf(s, e, f, db', r)
  {
    hide EpochOf, Fence, RunOut, Proof, Operation, Drawn, ReplayRefresh;
    assert FamilyOk(s, f) && HasRefresh(s.db, Hash(e.token), f);
    FenceTells(s, f);
    RunOutFails(s, f);
  }

  lemma BeginRefreshAnswers(s: System, e: Event)
    requires e.BeginRefresh? && FamiliesOk(s) && (KeyOf(e) in s.db.receipts ==> ReceiptOk(s, KeyOf(e)))
    ensures var (db', r) := BeginRefreshTx(s.db, s.clock, e.token, e.rotate, e.lease); RefreshBegins(s, e, db', r)
  {
    var (db', r) := BeginRefreshTx(s.db, s.clock, e.token, e.rotate, e.lease);
    forall f | Refreshes(s, e, f) ensures RefreshOf(s, e, f, db', r) {
      if KeyOf(e) in s.db.receipts { ReplayRefreshAnswers(s, e, f); } else { FirstRefreshAnswers(s, e, f); }
      hide RefreshOf, Fence, ReplayRefresh, Proof, Operation, FamilyOk, ReceiptOk, SecretOf;
    }
    NoneToRefresh(s, e);
    hide *;
  }

  lemma NoneToRefresh(s: System, e: Event)
    requires e.BeginRefresh? && (KeyOf(e) in s.db.receipts ==> ReceiptOk(s, KeyOf(e)))
    ensures (exists f :: Refreshes(s, e, f))
         || BeginRefreshTx(s.db, s.clock, e.token, e.rotate, e.lease) == (s.db, Rejected(Unauthorized))
  {
    hide Fence, ReplayRefresh, Proof, Operation, SecretOf, Drawn;
    if WellFormedRefresh(e) && KeyOf(e) in s.db.receipts {
      assert Refreshes(s, e, s.db.receipts[KeyOf(e)].family);
    } else if WellFormedRefresh(e) {
      if f :| HasRefresh(s.db, Hash(e.token), f) { assert Refreshes(s, e, f); }
    }
  }

  /** The renewal's own lease is still on the family and has not run out. */
  ghost predicate OnLease(s: System, c: Call)
    requires c.RefreshCall? && c.family in s.db.families
  {
    var row := s.db.families[c.family];
    row.phase == Refreshing && row.lease == c.lease
  }

  /** A renewal is stored exactly for the family's own user, on its own unexpired lease and on the user's
      epoch. A refusal or another user ends the session at once; a reply past the lease does, too. */
  ghost predicate RefreshEnds(s: System, e: Event, db': Db, r: Reply)
    requires e.FinishRefresh? && e.call.RefreshCall? && e.call.family in s.db.families
  {
    var f, row := e.call.family, s.db.families[e.call.family];
    var renewed := e.renewal.Renewed? && e.renewal.user == row.user;
    var stores := renewed && OnLease(s, e.call) && Passes(s.db, s.clock, f);
    var refused := e.renewal.RenewalRefused? || (e.renewal.Renewed? && e.renewal.user != row.user);
    && (r.Granted? <==> stores)
    && (r.Granted? || r.Rejected?)
    && (e.renewal.RenewalRefused? || e.renewal.RenewalUnusable? ==> r == Rejected(e.renewal.error))
    && (stores ==> Renews(s, e, db', r.grant))
    && (refused && OnLease(s, e.call) ==>
          FamilyBecomes(s.db, db', f, row.(phase := Reauth, secret := Blank)))
    && (renewed && RunOut(s, f) ==> Lapsed(s, f, db', r))
    && (!stores && !(refused && OnLease(s, e.call)) && !(renewed && RunOut(s, f)) ==> db' == s.db)
  }

  /** The successor has new tokens, the next generation and the renewed provider session; the spent token's
      receipt holds it for a minute. */
  ghost predicate Renews(s: System, e: Event, db': Db, grant: Grant)
    requires e.FinishRefresh? && e.call.RefreshCall? && e.call.family in s.db.families && e.renewal.Renewed?
  {
    var f, row := e.call.family, s.db.families[e.call.family];
    var expires := if s.clock + 300 <= e.renewal.expires then s.clock + 300 else e.renewal.expires;
    && grant.user == row.user && grant.family == f && grant.epoch == row.epoch
    && grant.generation == row.generation + 1 && Sha(grant.revoke) == row.revokeHash
    && grant.access == Access(e.access) && grant.refresh == Refresh(e.refresh)
    && grant.expiresAt == expires && grant.displayName == e.renewal.displayName
    && e.call.key !in s.db.receipts && e.call.key.oldHash == row.refreshHash && e.call.key.generation == row.generation
    && db' == s.db.(
         families := s.db.families[f := row.(
           phase := Active, generation := row.generation + 1, accessHash := Sha(Access(e.access)),
           refreshHash := Sha(Refresh(e.refresh)), expiresAt := expires, lease := "", leaseExpires := 0,
           secret := Box(ForFamily(f), OfFamily(FamilySecret(e.renewal.cookies, grant))))],
         receipts := s.db.receipts[e.call.key :=
           Receipt(f, s.clock + 60, Box(ForRefresh(e.call.key), OfGrant(grant)))])
  }

  /** What a waiting renewal knows of its row. */
  lemma RenewalKnows(s: System, e: Event)
    requires e.FinishRefresh? && e.call.RefreshCall? && RefreshCallOk(s, e.call) && Waits(s, e.call)
    requires FamiliesOk(s) && forall k :: k in s.db.receipts ==> ReceiptOk(s, k)
    ensures var f, row, g := e.call.family, s.db.families[e.call.family], e.call.familySecret.grant;
      OnLease(s, e.call) ==>
        && e.call.row.user == row.user && e.call.key !in s.db.receipts
        && e.call.key.oldHash == row.refreshHash && e.call.key.generation == row.generation
        && g.user == row.user && g.family == f && g.epoch == row.epoch && g.generation == row.generation
        && Sha(g.revoke) == row.revokeHash
  {
    hide EpochOf, FamiliesOk, Drawn, OpenReceipt;
    if e.call.key in s.db.receipts { assert ReceiptOk(s, e.call.key); }
  }

  lemma StoreRenewalAnswers(s: System, e: Event)
    requires e.FinishRefresh? && e.call.RefreshCall? && RefreshCallOk(s, e.call) && Waits(s, e.call)
    requires FamiliesOk(s) && (forall k :: k in s.db.receipts ==> ReceiptOk(s, k)) && Draws(e) !! s.drawn
    requires e.renewal.Renewed?
    ensures var f := e.call.family;
      var (db', r) := StoreRenewal(s.db, s.clock, e.call, NewGrant(s.clock, e), e.renewal.cookies);
      && (r.Granted? <==> OnLease(s, e.call) && Passes(s.db, s.clock, f)) && (r.Granted? || r.Rejected?)
      && (r.Granted? ==> Renews(s, e, db', r.grant))
      && (RunOut(s, f) ==> Lapsed(s, f, db', r))
      && (!r.Granted? && !RunOut(s, f) ==> db' == s.db)
  {
    hide EpochOf, FamiliesOk, Fence, Passes, RunOut, ReceiptOk, RefreshCallOk, FamilyFits, Waits, OpenReceipt;
    WaitsIsThere(s, e.call);
    var f, row := e.call.family, s.db.families[e.call.family];
    RenewalKnows(s, e);
    FenceTells(s, f);
    RunOutFails(s, f);
    assert e.access in Draws(e) && e.refresh in Draws(e);
    FreshTokensFit(s, f, RotatedRow(f, row, NewGrant(s.clock, e), e.renewal.cookies), e.access, e.refresh);
  }

  lemma FinishRefreshAnswers(s: System, e: Event)
    requires e.FinishRefresh? && e.call.RefreshCall? && RefreshCallOk(s, e.call) && Waits(s, e.call)
    requires FamiliesOk(s) && (forall k :: k in s.db.receipts ==> ReceiptOk(s, k)) && Draws(e) !! s.drawn
    requires UserKnown(s.db, e.call)
    ensures var (db', r) := FinishRefreshTx(s.db, s.clock, e.call, e.renewal, e.access, e.refresh);
      RefreshEnds(s, e, db', r)
  {
    if e.renewal.Renewed? { StoreRenewalAnswers(s, e); }
    hide FamiliesOk, StoreRenewal, Passes, RunOut, ReceiptOk, RefreshCallOk, Renews, EpochOf, Waits;
    hide FamilyBecomes;
  }

  // Every answer of every execution

  ghost predicate Answered(s: System, e: Event, db': Db, r: Reply) {
    match e
    case Tick(_) => r.Done? && db' == s.db
    case Crash(_) => r.Done? && db' == s.db
    case Bump(user, rise) =>
      var number := if user in s.db.epochs then s.db.epochs[user].number else 0;
      r.Done? && db' == s.db.(epochs := s.db.epochs[user := Epoch(number + rise, s.clock)])
    case Login(_, _, _, _, _) => LoginAnswer(s, e, db', r)
    case Browser(_) => BrowserAnswer(s, e, db', r)
    case BeginCallback(_, _, _) => CallbackAnswer(s, e, db', r)
    case FinishCallback(call, _, _) => call.CallbackCall? && call.id in s.db.attempts && NamedAnswer(s, e, db', r)
    case ConfirmLogin(_, _, _, _) => ConfirmAnswer(s, e, db', r)
    case Exchange(_, _, _, _, _) => ExchangeAnswer(s, e, db', r)
    case CancelLogin(_) => CancelAnswer(s, e, db', r)
    case RevokeSession(_) => RevokeAnswer(s, e, db', r)
    case BeginRecheck(_) => RecheckBegins(s, e, db', r)
    case FinishRecheck(call, _) =>
      call.RecheckCall? && call.reference.family in s.db.families && RecheckEnds(s, e, db', r)
    case BeginRefresh(_, _, _) => RefreshBegins(s, e, db', r)
    case FinishRefresh(call, _, _, _) => call.RefreshCall? && call.family in s.db.families && RefreshEnds(s, e, db', r)
  }

  lemma LoginEventAnswered(s: System, e: Event)
    requires Inv(s) && Known(s) && Enabled(s, e)
    requires e.Login? || e.Browser? || e.BeginCallback? || e.FinishCallback? || e.ConfirmLogin?
    ensures Answered(s, e, Transact(s, e).0, Transact(s, e).1)
  {
    hide FamiliesOk, ReceiptOk, RefreshCallsOk, AttemptOk, LinksOk, Proof, UserKnown, CallbackCallOk;
    hide LoginTx, BrowserTx, BeginCallbackTx, FinishCallbackTx, ConfirmTx;
    hide LoginAnswer, BrowserAnswer, CallbackAnswer, NamedAnswer, ConfirmAnswer;
    match e
    case Login(_, _, _, _, _) =>
      assert e.id in Draws(e);
      LoginAnswers(s, e);
    case Browser(_) => BrowserAnswers(s, e);
    case BeginCallback(_, _, _) => CallbackAnswers(s, e);
    case FinishCallback(_, _, _) =>
      CallIsThere(s, e.call);
      NamedAnswers(s, e);
    case ConfirmLogin(_, _, _, _) => ConfirmAnswers(s, e);
  }

  lemma CallIsThere(s: System, c: Call)
    requires c.CallbackCall? && CallbackCallOk(s, c)
    ensures c.id in s.db.attempts
  {
  }

  lemma SessionEventAnswered(s: System, e: Event)
    requires Inv(s) && Known(s) && Enabled(s, e)
    requires e.Exchange? || e.CancelLogin? || e.RevokeSession? || e.BeginRecheck? || e.FinishRecheck? || e.BeginRefresh?
    ensures Answered(s, e, Transact(s, e).0, Transact(s, e).1)
  {
    hide RefreshCallsOk, AttemptOk, LinkOk, Proof, CallbackCallsOk, FamilyOk, ReceiptOk;
    hide ExchangeTx, CancelTx, RevokeTx, BeginRecheckTx, FinishRecheckTx, BeginRefreshTx;
    hide ExchangeAnswer, CancelAnswer, RevokeAnswer, RecheckBegins, RecheckEnds, RefreshBegins;
    match e
    case Exchange(_, _, _, _, _) =>
      assert e.family in Draws(e);
      ExchangeAnswers(s, e);
    case CancelLogin(_) => CancelAnswers(s, e);
    case RevokeSession(_) => RevokeAnswers(s, e);
    case BeginRecheck(_) => BeginRecheckAnswers(s, e);
    case FinishRecheck(_, _) => FinishRecheckAnswers(s, e);
    case BeginRefresh(_, _, _) => BeginRefreshAnswers(s, e);
  }

  /** In every execution every answer and every change of the tables is the one described for its event: given
      exactly under the stated condition on the rows, and with exactly the stated effect; anything else is a
      refusal. */
  lemma EveryAnswer(run: Run, i: nat)
    requires Executes(run) && i < |run.events|
    ensures Answered(run.states[i], run.events[i], run.states[i + 1].db, run.replies[i])
    ensures ReplyKind(run.events[i], run.replies[i])
  {
    Executed(run, i);
    KindOfReply(run, i);
    var s, e := run.states[i], run.events[i];
    if e.FinishRefresh? {
      RenewalAnswered(run, i);
    } else if e.Login? || e.Browser? || e.BeginCallback? || e.FinishCallback? || e.ConfirmLogin? {
      LoginEventAnswered(s, e);
    } else if !e.Tick? && !e.Bump? && !e.Crash? {
      SessionEventAnswered(s, e);
    }
    hide Executes, IsRun, Inv, Known, LoginTx, BrowserTx, BeginCallbackTx, FinishCallbackTx, ConfirmTx;
    hide ExchangeTx, CancelTx, RevokeTx, BeginRecheckTx, FinishRecheckTx, BeginRefreshTx, FinishRefreshTx;
    hide LoginAnswer, BrowserAnswer, CallbackAnswer, NamedAnswer, ConfirmAnswer;
    hide ExchangeAnswer, CancelAnswer, RevokeAnswer, RecheckBegins, RecheckEnds, RefreshBegins, RefreshEnds;
  }

  lemma KindOfReply(run: Run, i: nat)
    requires IsRun(run) && i < |run.events|
    ensures ReplyKind(run.events[i], run.replies[i])
  {
    hide AttemptTable, ReceiptTable, FamilyTable, EpochTable, ReplyFacts, Enabled;
    assert StepAt(run, i);
  }

  lemma Lengths(run: Run)
    requires Executes(run)
    ensures |run.states| == |run.events| + 1 && |run.replies| == |run.events|
  {
  }

  lemma RenewalAnswered(run: Run, i: nat)
    requires Executes(run) && i < |run.events| && run.events[i].FinishRefresh?
    ensures Answered(run.states[i], run.events[i], run.states[i + 1].db, run.replies[i])
  {
    Executed(run, i);
    hide Executes, IsRun, FamiliesOk, ReceiptOk, AttemptsOk, LinksOk, CallbackCallsOk, FinishRefreshTx, RefreshEnds;
    hide Proof, RefreshCallOk, Waits;
    var s, e := run.states[i], run.events[i];
    WaitingInRun(run, i, e.call);
    FinishRefreshAnswers(s, e);
    WaitsIsThere(s, e.call);
  }

  lemma WaitsIsThere(s: System, c: Call)
    requires c.RefreshCall? && Waits(s, c)
    ensures c.family in s.db.families
  {
  }

  // What that means for sessions

  /** A renewal that the provider refuses, or grants to another user, ends the session at once: its row is in
      reauthentication with an empty box, nothing else changes, and no later reply uses the family. */
  lemma RefusedRenewalEndsSession(run: Run, i: nat, j: nat)
    requires Executes(run) && i < j < |run.states| && i < |run.events| && run.events[i].FinishRefresh?
    requires run.events[i].call.RefreshCall? && run.events[i].call.family in run.states[i].db.families
    requires var call, row := run.events[i].call, run.states[i].db.families[run.events[i].call.family];
      && row.phase == Refreshing && row.lease == call.lease
      && (|| run.events[i].renewal.RenewalRefused?
          || (run.events[i].renewal.Renewed? && run.events[i].renewal.user != row.user))
    ensures var f, db, db' := run.events[i].call.family, run.states[i].db, run.states[i + 1].db;
      && run.replies[i].Rejected? && db'.families.Keys == db.families.Keys
      && db'.families[f].phase == Reauth && db'.families[f].secret == Blank
      && db'.families[f] == db.families[f].(phase := Reauth, secret := Blank)
      && (forall g :: g in db.families && g != f ==> db'.families[g] == db.families[g])
      && db'.attempts == db.attempts && db'.receipts == db.receipts && db'.epochs == db.epochs
    ensures j < |run.events| ==> !Uses(run.events[j], run.replies[j], run.events[i].call.family)
  {
    hide Executes, IsRun, Uses, Transact, Next, RefreshEnds;
    Lengths(run);
    EveryAnswer(run, i);
    RefusedRenewalBecomes(run.states[i], run.events[i], run.states[i + 1].db, run.replies[i]);
    ExecutionIsRun(run);
    DeadForever(run, i + 1, j, run.events[i].call.family);
  }

  lemma RefusedRenewalBecomes(s: System, e: Event, db': Db, r: Reply)
    requires e.FinishRefresh? && Answered(s, e, db', r)
    requires var row := s.db.families[e.call.family];
      && row.phase == Refreshing && row.lease == e.call.lease
      && (e.renewal.RenewalRefused? || (e.renewal.Renewed? && e.renewal.user != row.user))
    ensures r.Rejected?
    ensures FamilyBecomes(s.db, db', e.call.family, s.db.families[e.call.family].(phase := Reauth, secret := Blank))
  {
    hide FamilyBecomes, Renews, Passes, RunOut;
  }

  /** Over every execution a recheck admits u if and only if the provider names u, u is the user of the
      family, the family is live on its user's epoch with no run-out lease, and the access hash, generation,
      epoch and expiry of the reference still match. */
  lemma RecheckAdmitsItsUser(run: Run, i: nat, u: string)
    requires Executes(run) && i < |run.events| && run.events[i].FinishRecheck? && run.events[i].call.RecheckCall?
    ensures var s, ref := run.states[i], run.events[i].call.reference;
      run.replies[i] == Admitted(u) <==>
        && run.events[i].principal == Some(u) && ref.family in s.db.families
        && var row := s.db.families[ref.family];
        && row.user == u && row.epoch == EpochOf(s.db, u).number
        && (row.phase == Active || (row.phase == Refreshing && s.clock < row.leaseExpires))
        && row.accessHash == ref.accessHash && row.generation == ref.generation && row.epoch == ref.epoch
        && s.clock < row.expiresAt
  {
    EveryAnswer(run, i);
    hide Executes, EpochOf;
  }

  /** The family whose fence the event takes. */
  ghost predicate AsksFor(s: System, e: Event, f: string) {
    match e
    case Exchange(_, _, _, _, _) => RedeemsAgain(s, e) && s.db.attempts[e.redeem.transaction].family == f
    case BeginRecheck(ref) => ref.family == f
    case FinishRecheck(call, principal) =>
      && call.RecheckCall? && call.reference.family == f && f in s.db.families
      && principal == Some(s.db.families[f].user)
    case BeginRefresh(_, _, _) => Refreshes(s, e, f)
    case FinishRefresh(call, renewal, _, _) =>
      && call.RefreshCall? && call.family == f && f in s.db.families
      && renewal.Renewed? && renewal.user == s.db.families[f].user
    case _ => false
  }

  /** Over every execution a family whose lease has run out is sent to reauthentication, with an empty box, by
      the first event that asks for it, and that event is refused. */
  lemma RunOutLeaseLapses(run: Run, i: nat, f: string)
    requires Executes(run) && i < |run.events| && RunOut(run.states[i], f) && AsksFor(run.states[i], run.events[i], f)
    ensures Lapsed(run.states[i], f, run.states[i + 1].db, run.replies[i])
  {
    EveryAnswer(run, i);
    RunOutFails(run.states[i], f);
    hide Executes, RunOut, Lapsed, Passes, Redeems, Renews;
  }

  // What that means for logins

  lemma PortKept(run: Run, i: nat, j: nat, id: string)
    requires IsRun(run) && i <= j < |run.states| && id in run.states[i].db.attempts
    ensures id in run.states[j].db.attempts && run.states[j].db.attempts[id].port == run.states[i].db.attempts[id].port
  {
    hide Inv, Step;
    var port := run.states[i].db.attempts[id].port;
    var p := (s: System) => id in s.db.attempts && s.db.attempts[id].port == port;
    forall s, e, s', r | Inv(s) && Step(s, e, s', r) && p(s) ensures p(s') { ExpectedStays(s, e, s', r, id); }
    Persists(run, i, j, p);
  }

  /** Every attempt was stored by the login event of its id. */
  lemma {:induction false} StoredByLogin(run: Run, m: nat, id: string) returns (a: nat)
    requires Executes(run) && m < |run.states| && id in run.states[m].db.attempts
    ensures a < m && run.events[a].Login? && run.events[a].id == id && run.replies[a].Started?
    ensures id in run.states[a + 1].db.attempts
    ensures LoginStored(run.states[a].db, run.events[a], run.states[a + 1].db.attempts[id])
  {
    hide Answered, LoginStored, Executes, Step, Transact, Next, ReplyKind;
    Lengths(run);
    ExecutionIsRun(run);
    assert m > 0;
    if id in run.states[m - 1].db.attempts {
      a := StoredByLogin(run, m - 1, id);
    } else {
      a := m - 1;
      EveryAnswer(run, a);
      assert StepAt(run, a);
      StateStays(run.states[a], run.events[a], run.states[a + 1], run.replies[a], id);
      LoginWasStarted(run.states[a], run.events[a], run.states[a + 1].db, run.replies[a]);
    }
  }

  lemma LoginWasStarted(s: System, e: Event, db': Db, r: Reply)
    requires e.Login? && Answered(s, e, db', r) && e.id !in s.db.attempts && e.id in db'.attempts
    ensures r.Started? && LoginStored(s.db, e, db'.attempts[e.id])
  {
    hide LoginStored, StateUnused, CanonicalUser, StateValid;
  }

  /** The confirmation page and the handoff go to the port that the login asked for. */
  lemma HandoffGoesToLoginPort(run: Run, i: nat) returns (a: nat)
    requires Executes(run) && i < |run.events| && (run.replies[i].HandedOff? || run.replies[i].AskConfirmation?)
    ensures a < i && run.events[a].Login? && run.events[a].id == run.replies[i].id
    ensures run.events[a].request.port == run.replies[i].port
  {
    hide Answered, Executes, IsRun, LoginStored, ReplyKind, Transact, Next;
    Lengths(run);
    EveryAnswer(run, i);
    ExecutionIsRun(run);
    HandoffIsOfAttempt(run.states[i], run.events[i], run.states[i + 1].db, run.replies[i]);
    a := StoredByLogin(run, i, run.replies[i].id);
    PortKept(run, a + 1, i, run.replies[i].id);
    StoredPort(run.states[a].db, run.events[a], run.states[a + 1].db.attempts[run.replies[i].id]);
  }

  lemma StoredPort(db: Db, e: Event, row: Attempt)
    requires e.Login? && LoginStored(db, e, row)
    ensures row.port == e.request.port
  {
  }

  lemma HandoffIsOfAttempt(s: System, e: Event, db': Db, r: Reply)
    requires Answered(s, e, db', r) && ReplyKind(e, r) && (r.HandedOff? || r.AskConfirmation?)
    ensures r.id in s.db.attempts && s.db.attempts[r.id].port == r.port
    ensures r.HandedOff? ==> e.ConfirmLogin? && e.id == r.id
  {
    hide Proof, EpochOf, Honoured, RunOut, Passes, LoginStored, StateUnused, Redeems, Renews, IssuedFirst;
    hide RefreshOf, OpenAttempt, UserUnchanged, HandedRow, NamedRow;
  }

  /** The handoff code of a login, once given, is the code of every later handoff of it. */
  ghost predicate CodeGiven(s: System, id: string, code: string) {
    && id in s.db.attempts && s.db.attempts[id].codeHash == Sha(Plain(code))
    && s.db.attempts[id].phase != Confirm && !EarlyPhase(s.db.attempts[id].phase)
  }

  predicate EarlyPhase(p: AttemptPhase) { p == New || p == Authorizing || p == Verifying }

  lemma CodeStays(s: System, e: Event, s': System, r: Reply, id: string, code: string)
    requires Step(s, e, s', r) && CodeGiven(s, id, code)
    ensures CodeGiven(s', id, code)
  {
    hide AttemptTable, ReceiptTable, FamilyTable, EpochTable, ReplyFacts, ReplyKind, Proof, Enabled, OpenAttempt;
    hide EpochOf, EpochUntouched;
    AttemptFate(s.db, s.clock, e, s'.db, id);
  }

  lemma HandoffGivesCode(s: System, e: Event, db': Db, r: Reply)
    requires Answered(s, e, db', r) && ReplyKind(e, r) && r.HandedOff?
    ensures r.id in s.db.attempts && r.id in db'.attempts
    ensures db'.attempts[r.id].phase == Ready && db'.attempts[r.id].codeHash == Sha(Plain(r.code))
    ensures s.db.attempts[r.id].phase == Confirm || s.db.attempts[r.id].codeHash == Sha(Plain(r.code))
  {
    hide Proof, EpochOf, Honoured, RunOut, Passes, LoginStored, StateUnused, Redeems, Renews, IssuedFirst;
    hide RefreshOf, UserUnchanged, NamedRow;
  }

  lemma OneCodePerLogin(run: Run, i: nat, j: nat)
    requires Executes(run) && i < j < |run.events| && run.replies[i].HandedOff? && run.replies[j].HandedOff?
    requires run.replies[i].id == run.replies[j].id
    ensures run.replies[i].code == run.replies[j].code
  {
    hide Inv, Step, Executes, Answered, IsRun, ReplyKind, Transact, Next;
    Lengths(run);
    EveryAnswer(run, i);
    EveryAnswer(run, j);
    ExecutionIsRun(run);
    HandoffGivesCode(run.states[i], run.events[i], run.states[i + 1].db, run.replies[i]);
    HandoffGivesCode(run.states[j], run.events[j], run.states[j + 1].db, run.replies[j]);
    var id, code := run.replies[i].id, run.replies[i].code;
    forall s, e, s', r | Inv(s) && Step(s, e, s', r) && CodeGiven(s, id, code) ensures CodeGiven(s', id, code) {
      CodeStays(s, e, s', r, id, code);
    }
    Persists(run, i + 1, j, (s: System) => CodeGiven(s, id, code));
  }
}
