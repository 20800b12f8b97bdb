/** What every reachable state of the protocol satisfies. */
module NativeInvariant {
  import opened Options
  import opened NativeTypes
  import opened NativeSpec
  import opened NativeSteps

  ghost predicate Drawn(s: System, d: Digest) {
    d.Sha? && !d.of.Plain? && d.of.body in s.drawn
  }

  ghost predicate FamilyOk(s: System, f: string) {
    && f in s.db.families
    && var row := s.db.families[f];
    && f != ""
    && Drawn(s, row.accessHash) && row.accessHash.of.Access?
    && Drawn(s, row.refreshHash) && row.refreshHash.of.Refresh?
    && Drawn(s, row.revokeHash) && row.revokeHash.of.Revoke?
    && row.generation <= U64_MAX
    && row.epoch <= EpochOf(s.db, row.user).number
    && (row.phase == Refreshing ==> row.lease in s.drawn && row.generation < U64_MAX)
    && (Live(row) ==> SecretOf(f, row).Some?)
  }

  ghost predicate FamiliesOk(s: System) {
    && (forall f :: f in s.db.families ==> FamilyOk(s, f))
    && var families := s.db.families;
    && (forall f, g :: f in families && g in families && families[f].refreshHash == families[g].refreshHash ==> f == g)
    && (forall f, g :: f in families && g in families && families[f].revokeHash == families[g].revokeHash ==> f == g)
  }

  /** A receipt's token belongs to no family any more, and there is one receipt per token. */
  ghost predicate ReceiptOk(s: System, key: ReceiptKey) {
    && key in s.db.receipts
    && var receipt := s.db.receipts[key];
    && Drawn(s, key.oldHash) && key.oldHash.of.Refresh?
    && receipt.family in s.db.families
    && (forall f :: f in s.db.families ==> s.db.families[f].refreshHash != key.oldHash)
    && (forall k :: k in s.db.receipts && k.oldHash == key.oldHash ==> k == key)
    && OpenReceipt(key, receipt.result).Some?
    && var grant := OpenReceipt(key, receipt.result).value;
    && grant.family == receipt.family && grant.generation == key.generation + 1
    && grant.generation <= s.db.families[receipt.family].generation
  }

  /** While its lease is on the row, a renewal in flight knows exactly that row. */
  ghost predicate RefreshCallOk(s: System, call: Call)
    requires call.RefreshCall?
  {
    && call.family in s.db.families && call.lease in s.drawn
    && SecretOf(call.family, call.row) == Some(call.familySecret)
    && call.key.oldHash == call.row.refreshHash && call.key.generation == call.row.generation
    && var row := s.db.families[call.family];
    (row.phase == Refreshing && row.lease == call.lease ==>
       row == call.row.(phase := Refreshing, lease := call.lease, leaseExpires := row.leaseExpires))
  }

  ghost predicate RefreshCallsOk(s: System) {
    && (forall c :: c in s.calls && c.RefreshCall? ==> RefreshCallOk(s, c))
    && (forall c, d :: c in s.calls && d in s.calls && c.RefreshCall? && d.RefreshCall? && c.lease == d.lease ==>
          c == d)
  }

  ghost predicate CallbackCallOk(s: System, call: Call)
    requires call.CallbackCall?
  {
    && call.id in s.db.attempts
    && call.attempt.phase == Authorizing
    && OpenAttempt(call.id, call.attempt.secret) == Some(call.attemptSecret)
    && var row := s.db.attempts[call.id];
    && row.created == call.attempt.created && row.expected == call.attempt.expected
    && row.startEpoch == call.attempt.startEpoch
    && row.phase != New && row.phase != Authorizing
    && (row.phase == Verifying ==> row == call.attempt.(phase := Verifying))
  }

  ghost predicate CallbackCallsOk(s: System) {
    && (forall c :: c in s.calls && c.CallbackCall? ==> CallbackCallOk(s, c))
    && (forall c, d :: c in s.calls && d in s.calls && c.CallbackCall? && d.CallbackCall? && c.id == d.id ==> c == d)
  }

  predicate Pending(phase: AttemptPhase) {
    phase == New || phase == Authorizing || phase == Verifying || phase == Confirm || phase == Ready
  }

  ghost predicate AttemptOk(s: System, id: string) {
    && id in s.db.attempts
    && var row := s.db.attempts[id];
    && row.created <= s.clock && row.expires == row.created + ATTEMPT_TTL
    && (Pending(row.phase) || row.phase == Failed ==> row.family == "")
    && (row.phase == Redeemed ==> row.family != "")
    && (Pending(row.phase) ==>
          && OpenAttempt(id, row.secret).Some?
          && var secret := OpenAttempt(id, row.secret).value;
          && (row.phase != New ==> row.cookieHash == HashText(secret.browserCookie))
          && (row.phase == Confirm || row.phase == Ready ==>
                row.epoch.Some? && row.confirmHash == HashText(secret.nonce))
          && (row.phase == Ready ==>
                && row.codeHash == HashText(secret.handoffCode)
                && row.handoffExpires.Some? && row.handoffExpires.value <= row.expires))
  }

  ghost predicate AttemptsOk(s: System) {
    forall id :: id in s.db.attempts ==> AttemptOk(s, id)
  }

  /** The family of an attempt exists, and the family of a cancelled attempt is revoked. */
  ghost predicate LinkOk(s: System, id: string)
    requires id in s.db.attempts
  {
    var row := s.db.attempts[id];
    row.family != "" ==>
      && row.family in s.db.families
      && (row.phase == Cancelled ==> s.db.families[row.family].phase == Revoked)
      && (row.phase == Redeemed ==>
            && OpenHandoff(id, row.receipt).Some?
            && OpenHandoff(id, row.receipt).value.session.family == row.family)
  }

  ghost predicate LinksOk(s: System) {
    forall id :: id in s.db.attempts ==> LinkOk(s, id)
  }

  ghost predicate EpochsOk(s: System) {
    forall user :: user in s.db.epochs ==> s.db.epochs[user].changedAt <= s.clock
  }

  ghost predicate Inv(s: System) {
    && FamiliesOk(s)
    && (forall key :: key in s.db.receipts ==> ReceiptOk(s, key))
    && RefreshCallsOk(s)
    && CallbackCallsOk(s)
    && AttemptsOk(s)
    && LinksOk(s)
    && EpochsOk(s)
  }

  lemma InitInv()
    ensures Inv(Init)
  {
  }

  lemma EpochsRise(db: Db, now: nat, e: Event, db': Db, user: string)
    requires EpochTable(db, now, e, db')
    ensures EpochOf(db, user).number <= EpochOf(db', user).number
    ensures !e.Bump? ==> EpochOf(db', user) == EpochOf(db, user)
  {
  }

  /** The fate of one family row in one event. */
  lemma FamilyFate(db: Db, now: nat, e: Event, db': Db, f: string)
    requires FamilyTable(db, now, e, db')
    ensures f in db.families ==>
      && f in db'.families
      && (db'.families[f] == db.families[f] || FamilyPut(db, now, e, f, db') || Rotates(db, now, e, f, db'))
    ensures Rotates(db, now, e, f, db') ==> e.FinishRefresh? && e.call.RefreshCall? && e.call.family == f
    ensures f !in db.families && f in db'.families ==> Issues(db, now, e, db') && f == e.family
  {
  }

  lemma FamilyPutKept(s: System, e: Event, s': System, f: string)
    requires FamilyOk(s, f) && FamilyPut(s.db, s.clock, e, f, s'.db)
    requires EpochTable(s.db, s.clock, e, s'.db) && s'.drawn == s.drawn + Draws(e)
    ensures FamilyOk(s', f)
  {
    hide Proof, EpochTable, EpochOf, Cancels;
    EpochsRise(s.db, s.clock, e, s'.db, s.db.families[f].user);
  }

  lemma FamilySameKept(s: System, e: Event, s': System, f: string)
    requires FamilyOk(s, f) && f in s'.db.families && s'.db.families[f] == s.db.families[f]
    requires EpochTable(s.db, s.clock, e, s'.db) && s'.drawn == s.drawn + Draws(e)
    ensures FamilyOk(s', f)
  {
    hide Proof, EpochTable, EpochOf, Cancels;
    EpochsRise(s.db, s.clock, e, s'.db, s.db.families[f].user);
  }

  lemma FamilyRotatedKept(s: System, e: Event, s': System, f: string)
    requires FamilyOk(s, f) && Rotates(s.db, s.clock, e, f, s'.db) && RefreshCallOk(s, e.call)
    requires EpochTable(s.db, s.clock, e, s'.db) && s'.drawn == s.drawn + Draws(e)
    ensures FamilyOk(s', f)
  {
    EpochsRise(s.db, s.clock, e, s'.db, s.db.families[f].user);
  }

  lemma ProofIsNotEmpty(v: string)
    requires Proof(v)
    ensures v != ""
  {
  }

  lemma GrantedRowOpens(g: Grant, cookies: string)
    ensures SecretOf(g.family, GrantedRow(g, cookies)).Some?
  {
  }

  lemma GrantedHashesDrawn(s': System, e: Event, g: Grant, cookies: string)
    requires e.Exchange? && Draws(e) <= s'.drawn
    requires g.access == Access(e.access) && g.refresh == Refresh(e.refresh) && g.revoke == Revoke(e.revoke)
    ensures var row := GrantedRow(g, cookies);
      && Drawn(s', row.accessHash) && row.accessHash.of.Access?
      && Drawn(s', row.refreshHash) && row.refreshHash.of.Refresh?
      && Drawn(s', row.revokeHash) && row.revokeHash.of.Revoke?
  {
    assert e.access in Draws(e) && e.refresh in Draws(e) && e.revoke in Draws(e);
  }

  lemma FamilyIssuedKept(s: System, e: Event, s': System)
    requires Issues(s.db, s.clock, e, s'.db) && (forall r :: r in Draws(e) ==> Proof(r))
    requires EpochTable(s.db, s.clock, e, s'.db) && s'.drawn == s.drawn + Draws(e)
    ensures FamilyOk(s', e.family)
  {
    hide Proof, SecretOf, EpochOf, EpochTable, Drawn;
    var row := s.db.attempts[e.redeem.transaction];
    var secret := OpenAttempt(e.redeem.transaction, row.secret).value;
    var grant := FirstGrant(s.clock, e, row, secret);
    assert e.family in Draws(e);
    ProofIsNotEmpty(e.family);
    EpochsRise(s.db, s.clock, e, s'.db, row.user);
    GrantedRowOpens(grant, secret.providerCookies);
    GrantedHashesDrawn(s', e, grant, secret.providerCookies);
  }

  lemma FamilyKept(s: System, e: Event, s': System, r: Reply, f: string)
    requires Step(s, e, s', r) && FamiliesOk(s) && RefreshCallsOk(s) && f in s'.db.families
    ensures FamilyOk(s', f)
  {
    hide AttemptTable, ReceiptTable, ReplyFacts, FamilyTable, EpochTable, Issues, FamilyPut, Rotates, FamilyOk;
    hide RefreshCallOk, Proof;
    FamilyFate(s.db, s.clock, e, s'.db, f);
    if f !in s.db.families {
      FamilyIssuedKept(s, e, s');
    } else if Rotates(s.db, s.clock, e, f, s'.db) {
      FamilyRotatedKept(s, e, s', f);
    } else if FamilyPut(s.db, s.clock, e, f, s'.db) {
      FamilyPutKept(s, e, s', f);
    } else {
      FamilySameKept(s, e, s', f);
    }
  }

  /** Where the token hashes of a row come from: they are old, or drawn by this event. */
  lemma HashFate(db: Db, now: nat, e: Event, db': Db, f: string)
    requires FamilyTable(db, now, e, db') && f in db'.families
    ensures
      || (f in db.families && db'.families[f].refreshHash == db.families[f].refreshHash
         && db'.families[f].revokeHash == db.families[f].revokeHash)
      || (&& Rotates(db, now, e, f, db') && e.FinishRefresh? && e.call.RefreshCall? && f == e.call.family
         && f in db.families
          && db'.families[f].refreshHash == Sha(Refresh(e.refresh)) && e.refresh in Draws(e)
          && db'.families[f].revokeHash == db.families[f].revokeHash)
      || (&& e.Exchange? && f == e.family && f !in db.families
          && db'.families[f].refreshHash == Sha(Refresh(e.refresh)) && e.refresh in Draws(e)
          && db'.families[f].revokeHash == Sha(Revoke(e.revoke)) && e.revoke in Draws(e))
  {
    FamilyFate(db, now, e, db', f);
  }

  lemma FamiliesApart(s: System, e: Event, s': System, r: Reply, f: string, g: string)
    requires Step(s, e, s', r) && FamiliesOk(s)
    requires f in s'.db.families && g in s'.db.families && f != g
    ensures s'.db.families[f].refreshHash != s'.db.families[g].refreshHash
    ensures s'.db.families[f].revokeHash != s'.db.families[g].revokeHash
  {
    hide AttemptTable, ReceiptTable, ReplyFacts, FamilyTable, EpochTable, Issues, FamilyPut, Rotates, Proof, SecretOf;
    HashFate(s.db, s.clock, e, s'.db, f);
    HashFate(s.db, s.clock, e, s'.db, g);
    if f in s.db.families { assert FamilyOk(s, f); }
    if g in s.db.families { assert FamilyOk(s, g); }
  }

  lemma FamiliesKept(s: System, e: Event, s': System, r: Reply)
    requires Step(s, e, s', r) && FamiliesOk(s) && RefreshCallsOk(s)
    ensures FamiliesOk(s')
  {
    hide Step, FamilyOk, RefreshCallsOk;
    forall f | f in s'.db.families ensures FamilyOk(s', f) { FamilyKept(s, e, s', r, f); }
    forall f, g | f in s'.db.families && g in s'.db.families && f != g
      ensures s'.db.families[f].refreshHash != s'.db.families[g].refreshHash
      ensures s'.db.families[f].revokeHash != s'.db.families[g].revokeHash
    {
      FamiliesApart(s, e, s', r, f, g);
    }
  }

  // Receipts

  lemma GenerationsRise(db: Db, now: nat, e: Event, db': Db, f: string)
    requires FamilyTable(db, now, e, db') && f in db.families
    requires e.FinishRefresh? && e.call.RefreshCall? && e.call.family == f ==>
      e.call.familySecret.grant.generation == db.families[f].generation || db.families[f].phase != Refreshing
        || db.families[f].lease != e.call.lease
    ensures f in db'.families && db.families[f].generation <= db'.families[f].generation
  {
    FamilyFate(db, now, e, db', f);
  }

  lemma CallGeneration(s: System, e: Event)
    requires Enabled(s, e) && RefreshCallsOk(s) && e.FinishRefresh?
    ensures var row := s.db.families[e.call.family];
            e.call.familySecret.grant.generation == row.generation || row.phase != Refreshing
              || row.lease != e.call.lease
  {
    assert RefreshCallOk(s, e.call);
  }

  lemma OldReceiptKept(s: System, e: Event, s': System, r: Reply, key: ReceiptKey)
    requires Step(s, e, s', r) && FamiliesOk(s) && RefreshCallsOk(s) && ReceiptOk(s, key)
    requires key in s'.db.receipts && s'.db.receipts[key] == s.db.receipts[key]
    ensures s.db.receipts[key].family in s'.db.families
    ensures s.db.families[s.db.receipts[key].family].generation <= s'.db.families[s.db.receipts[key].family].generation
    ensures forall f :: f in s'.db.families ==> s'.db.families[f].refreshHash != key.oldHash
  {
    hide AttemptTable, ReceiptTable, ReplyFacts, FamilyTable, EpochTable, Issues, FamilyPut, Rotates, Proof, FamilyOk;
    if e.FinishRefresh? { CallGeneration(s, e); }
    GenerationsRise(s.db, s.clock, e, s'.db, s.db.receipts[key].family);
    forall f | f in s'.db.families ensures s'.db.families[f].refreshHash != key.oldHash {
      HashFate(s.db, s.clock, e, s'.db, f);
    }
  }

  /** The token that a rotation spends belongs to no family afterwards. */
  lemma SpentTokenIsGone(s: System, e: Event, s': System, r: Reply, f: string)
    requires Step(s, e, s', r) && FamiliesOk(s) && RefreshCallsOk(s) && Rotates(s.db, s.clock, e, f, s'.db)
    ensures forall g :: g in s'.db.families ==> s'.db.families[g].refreshHash != e.call.key.oldHash
    ensures Drawn(s', e.call.key.oldHash) && e.call.key.oldHash.of.Refresh?
    ensures s.db.families[f].refreshHash == e.call.key.oldHash
  {
    hide AttemptTable, ReceiptTable, ReplyFacts, FamilyTable, EpochTable, Issues, FamilyPut, Proof, EpochOf, Live;
    hide SecretOf;
    assert RefreshCallOk(s, e.call) && FamilyOk(s, f);
    forall g | g in s'.db.families ensures s'.db.families[g].refreshHash != e.call.key.oldHash {
      HashFate(s.db, s.clock, e, s'.db, g);
      hide Rotates;
    }
  }

  lemma NewReceiptOpens(s: System, e: Event, s': System, f: string)
    requires Rotates(s.db, s.clock, e, f, s'.db) && e.call.RefreshCall? && RefreshCallOk(s, e.call)
    ensures e.call.key in s'.db.receipts && s'.db.receipts[e.call.key].family == f && f in s'.db.families
    ensures var opened' := OpenReceipt(e.call.key, s'.db.receipts[e.call.key].result);
      && opened'.Some? && opened'.value.family == f
      && opened'.value.generation == e.call.key.generation + 1 == s'.db.families[f].generation
  {
    hide EpochOf, Proof;
  }

  lemma NewReceiptKept(s: System, e: Event, s': System, r: Reply, f: string)
    requires Step(s, e, s', r) && FamiliesOk(s) && RefreshCallsOk(s) && Rotates(s.db, s.clock, e, f, s'.db)
    requires forall k :: k in s.db.receipts ==> ReceiptOk(s, k)
    ensures ReceiptOk(s', e.call.key)
  {
    hide Step, FamiliesOk, RefreshCallOk, OpenReceipt, EpochOf, SecretOf, Drawn;
    CallKnown(s, e, s', r);
    SpentTokenIsGone(s, e, s', r, f);
    NewReceiptOpens(s, e, s', f);
    FiledTokensAreGone(s, f);
  }

  lemma FiledTokensAreGone(s: System, f: string)
    requires f in s.db.families && forall k :: k in s.db.receipts ==> ReceiptOk(s, k)
    ensures forall k :: k in s.db.receipts ==> k.oldHash != s.db.families[f].refreshHash
  {
    forall k | k in s.db.receipts ensures k.oldHash != s.db.families[f].refreshHash { assert ReceiptOk(s, k); }
  }

  lemma CallKnown(s: System, e: Event, s': System, r: Reply)
    requires Step(s, e, s', r) && RefreshCallsOk(s) && e.FinishRefresh?
    ensures e.call.RefreshCall? && RefreshCallOk(s, e.call)
  {
    hide TableStep, RefreshCallOk, Proof;
  }

  lemma ReceiptsKept(s: System, e: Event, s': System, r: Reply)
    requires Step(s, e, s', r) && Inv(s)
    ensures forall key :: key in s'.db.receipts ==> ReceiptOk(s', key)
  {
    hide AttemptTable, ReplyFacts, FamilyTable, EpochTable, Issues, FamilyPut, Proof, FamiliesOk;
    hide RefreshCallsOk, AttemptsOk, CallbackCallsOk, LinksOk, EpochsOk, Enabled;
    hide SecretOf, EpochOf, OpenReceipt, RotatedRow, NewGrant;
    forall key | key in s'.db.receipts ensures ReceiptOk(s', key) {
      if key in s.db.receipts && s'.db.receipts == s.db.receipts {
        OldReceiptKept(s, e, s', r, key);
      } else {
        var f :| Rotates(s.db, s.clock, e, f, s'.db);
        NewReceiptKept(s, e, s', r, f);
        if key != e.call.key { OldReceiptKept(s, e, s', r, key); }
      }
    }
  }

  // Calls waiting for the provider

  lemma OldRefreshCallKept(s: System, e: Event, s': System, r: Reply, call: Call)
    requires Step(s, e, s', r) && call.RefreshCall? && RefreshCallOk(s, call)
    ensures RefreshCallOk(s', call)
  {
    hide AttemptTable, ReceiptTable, ReplyFacts, FamilyTable, EpochTable, Issues, Proof, SecretOf;
    FamilyFate(s.db, s.clock, e, s'.db, call.family);
  }

  lemma NewRefreshCallKept(s: System, e: Event, s': System, r: Reply)
    requires Step(s, e, s', r) && r.Waiting? && r.call.RefreshCall?
    ensures RefreshCallOk(s', r.call) && r.call.lease in Draws(e)
  {
    hide AttemptTable, ReceiptTable, FamilyTable, EpochTable, Issues, Proof, SecretOf;
  }

  lemma RefreshCallsKept(s: System, e: Event, s': System, r: Reply)
    requires Step(s, e, s', r) && RefreshCallsOk(s)
    ensures RefreshCallsOk(s')
  {
    hide TableStep, Proof, RefreshCallOk;
    forall c | c in s'.calls && c.RefreshCall? ensures RefreshCallOk(s', c) {
      if c in s.calls { OldRefreshCallKept(s, e, s', r, c); } else { NewRefreshCallKept(s, e, s', r); }
    }
    forall c, d | c in s'.calls && d in s'.calls && c.RefreshCall? && d.RefreshCall? && c.lease == d.lease
      ensures c == d
    {
      if c !in s.calls || d !in s.calls { NewRefreshCallKept(s, e, s', r); LeasesDrawn(s); }
    }
  }

  lemma LeasesDrawn(s: System)
    requires RefreshCallsOk(s)
    ensures forall c :: c in s.calls && c.RefreshCall? ==> c.lease in s.drawn
  {
    forall c | c in s.calls && c.RefreshCall? ensures c.lease in s.drawn { assert RefreshCallOk(s, c); }
  }

  lemma AttemptFate(db: Db, now: nat, e: Event, db': Db, id: string)
    requires AttemptTable(db, now, e, db')
    ensures id in db.attempts ==>
      && id in db'.attempts
      && (|| db'.attempts[id] == db.attempts[id]
          || AttemptPut(db, now, e, id, db')
          || (Issues(db, now, e, db') && e.Exchange? && id == e.redeem.transaction))
    ensures id !in db.attempts && id in db'.attempts ==> Opens(db, e, db') && e.Login? && id == e.id
  {
  }

  lemma OldCallbackCallKept(s: System, e: Event, s': System, r: Reply, call: Call)
    requires Step(s, e, s', r) && call.CallbackCall? && CallbackCallOk(s, call)
    ensures CallbackCallOk(s', call)
  {
    hide AttemptTable, ReceiptTable, ReplyFacts, FamilyTable, EpochTable, Proof, OpenAttempt;
    hide EpochOf, EpochUntouched, SecretOf, GrantedRow, FirstGrant, FirstResult;
    AttemptFate(s.db, s.clock, e, s'.db, call.id);
  }

  lemma NewCallbackCallKept(s: System, e: Event, s': System, r: Reply)
    requires Step(s, e, s', r) && r.Waiting? && r.call.CallbackCall?
    ensures CallbackCallOk(s', r.call) && r.call.id in s.db.attempts && s.db.attempts[r.call.id].phase == Authorizing
  {
    hide AttemptTable, ReceiptTable, FamilyTable, EpochTable, Issues, Proof, OpenAttempt;
  }

  lemma CallbackCallsKept(s: System, e: Event, s': System, r: Reply)
    requires Step(s, e, s', r) && CallbackCallsOk(s)
    ensures CallbackCallsOk(s')
  {
    hide TableStep, Proof;
    forall c | c in s'.calls && c.CallbackCall? ensures CallbackCallOk(s', c) {
      if c in s.calls { OldCallbackCallKept(s, e, s', r, c); } else { NewCallbackCallKept(s, e, s', r); }
    }
    forall c, d | c in s'.calls && d in s'.calls && c.CallbackCall? && d.CallbackCall? && c.id == d.id ensures c == d {
      if c !in s.calls || d !in s.calls { NewCallbackCallKept(s, e, s', r); }
    }
  }

  // Attempts

  lemma AttemptPutKept(s: System, e: Event, s': System, id: string)
    requires AttemptOk(s, id) && AttemptPut(s.db, s.clock, e, id, s'.db) && s.clock <= s'.clock
    requires e.FinishCallback? && e.call.CallbackCall? ==> CallbackCallOk(s, e.call)
    ensures AttemptOk(s', id)
  {
    hide EpochUntouched, EpochOf, Proof;
  }

  lemma AttemptOpenedKept(s: System, e: Event, s': System)
    requires Opens(s.db, e, s'.db) && e.created <= s'.clock
    ensures AttemptOk(s', e.id)
  {
    hide EpochOf;
  }

  lemma AttemptRedeemedKept(s: System, e: Event, s': System)
    requires Issues(s.db, s.clock, e, s'.db) && AttemptOk(s, e.redeem.transaction) && s.clock <= s'.clock
      && e.family != ""
    ensures AttemptOk(s', e.redeem.transaction)
  {
  }

  lemma AttemptKept(s: System, e: Event, s': System, r: Reply, id: string)
    requires Step(s, e, s', r) && AttemptsOk(s) && CallbackCallsOk(s) && id in s'.db.attempts
    ensures AttemptOk(s', id)
  {
    hide TableStep, AttemptPut, CallbackCallOk, AttemptOk, Opens, Issues, Proof;
    assert AttemptTable(s.db, s.clock, e, s'.db) by { StepTables(s, e, s', r); }
    AttemptFate(s.db, s.clock, e, s'.db, id);
    if id !in s.db.attempts {
      AttemptOpenedKept(s, e, s');
    } else if AttemptPut(s.db, s.clock, e, id, s'.db) {
      AttemptPutKept(s, e, s', id);
    } else if s'.db.attempts[id] != s.db.attempts[id] {
      DrawnNotEmpty(s, e);
      AttemptRedeemedKept(s, e, s');
    } else {
      AttemptSameKept(s, s', id);
    }
  }

  lemma StepTables(s: System, e: Event, s': System, r: Reply)
    requires Step(s, e, s', r)
    ensures FamilyTable(s.db, s.clock, e, s'.db) && AttemptTable(s.db, s.clock, e, s'.db)
  {
    hide FamilyTable, AttemptTable, ReceiptTable, ReplyFacts, EpochTable, Enabled;
  }

  lemma DrawnNotEmpty(s: System, e: Event)
    requires Enabled(s, e)
    ensures "" !in Draws(e)
  {
  }

  lemma AttemptSameKept(s: System, s': System, id: string)
    requires AttemptOk(s, id) && id in s'.db.attempts && s'.db.attempts[id] == s.db.attempts[id] && s.clock <= s'.clock
    ensures AttemptOk(s', id)
  {
  }

  // Links between the two tables

  lemma RevokedStays(db: Db, now: nat, e: Event, db': Db, f: string)
    requires FamilyTable(db, now, e, db') && f in db.families && db.families[f].phase == Revoked
    ensures f in db'.families && db'.families[f].phase == Revoked
  {
    hide FamilyTable, EpochOf;
    FamilyFate(db, now, e, db', f);
  }

  lemma LinkPutKept(s: System, e: Event, s': System, id: string)
    requires AttemptOk(s, id) && LinkOk(s, id) && AttemptPut(s.db, s.clock, e, id, s'.db)
    requires s.db.families.Keys <= s'.db.families.Keys
    ensures LinkOk(s', id)
  {
    hide EpochUntouched, EpochOf, OpenAttempt;
  }

  lemma LinkSameKept(s: System, e: Event, s': System, id: string)
    requires id in s.db.attempts && LinkOk(s, id) && FamilyTable(s.db, s.clock, e, s'.db)
    requires id in s'.db.attempts && s'.db.attempts[id] == s.db.attempts[id]
    ensures LinkOk(s', id)
  {
    hide FamilyTable, FamilyPut, Rotates, Issues;
    var f := s.db.attempts[id].family;
    FamilyFate(s.db, s.clock, e, s'.db, f);
    if f in s.db.families && s.db.families[f].phase == Revoked { RevokedStays(s.db, s.clock, e, s'.db, f); }
  }

  lemma LinkKept(s: System, e: Event, s': System, r: Reply, id: string)
    requires Step(s, e, s', r) && AttemptsOk(s) && LinksOk(s) && id in s'.db.attempts
    ensures LinkOk(s', id)
  {
    hide Step, AttemptTable, FamilyTable, AttemptPut, AttemptOk, FamilyPut, Rotates;
    StepTables(s, e, s', r);
    AttemptFate(s.db, s.clock, e, s'.db, id);
    if id in s.db.attempts {
      if s'.db.attempts[id] == s.db.attempts[id] { LinkSameKept(s, e, s', id); }
      else if AttemptPut(s.db, s.clock, e, id, s'.db) {
        forall f | f in s.db.families ensures f in s'.db.families { FamilyFate(s.db, s.clock, e, s'.db, f); }
        LinkPutKept(s, e, s', id);
      }
    }
  }

  /** The invariant holds after every event. */
  lemma InvKept(s: System, e: Event, s': System, r: Reply)
    requires Step(s, e, s', r) && Inv(s)
    ensures Inv(s')
  {
    hide AttemptTable, ReceiptTable, ReplyFacts, FamilyTable, FamiliesOk, ReceiptOk, RefreshCallsOk;
    hide CallbackCallsOk, AttemptOk, LinkOk, Enabled;
    FamiliesKept(s, e, s', r);
    ReceiptsKept(s, e, s', r);
    RefreshCallsKept(s, e, s', r);
    CallbackCallsKept(s, e, s', r);
    forall id | id in s'.db.attempts ensures AttemptOk(s', id) && LinkOk(s', id) {
      AttemptKept(s, e, s', r, id);
      LinkKept(s, e, s', r, id);
    }
  }
}
