/** Rows, requests and sealed payloads of the native session service.

    Cryptography is symbolic: a digest remembers what was hashed, so hashing is
    injective, and a sealed box opens only under the purpose it was sealed for. */
module NativeTypes {
  import opened Options

  const U64_MAX: nat := 0xFFFF_FFFF_FFFF_FFFF
  type U64 = n: nat | n <= U64_MAX
  const MAX_ATTEMPTS: nat := 4096
  const ATTEMPT_TTL: nat := 600
  const HANDOFF_TTL: nat := 60
  const RECEIPT_TTL: nat := 60
  const LEASE_TTL: nat := 30
  const ACCESS_TTL: nat := 300


  datatype NativeError = Unauthorized | Invalid | Unavailable

  /** A secret string, already split at its "sproyt-…." prefix when it has one. */
  datatype Credential = Access(body: string) | Refresh(body: string) | Revoke(body: string) | Plain(text: string)

  /** A hash column; NoDigest is the empty column. */
  datatype Digest = NoDigest | Sha(of: Credential)

  function Hash(c: Credential): Digest { Sha(c) }

  function HashText(t: string): Digest { Sha(Plain(t)) }

  // Validators

  predicate Base64Url(c: char) {
    'a' <= c <= 'z' || 'A' <= c <= 'Z' || '0' <= c <= '9' || c == '-' || c == '_'
  }

  /** 32 bytes in unpadded base64url: 43 digits, the last one with two zero low bits. */
  predicate Proof(v: string) {
    && |v| == 43
    && (forall i :: 0 <= i < |v| ==> Base64Url(v[i]))
    && v[42] in "AEIMQUYcgkosw048"
  }

  predicate StateValid(v: string) {
    16 <= |v| <= 256 && forall i :: 0 <= i < |v| ==> Base64Url(v[i])
  }

  predicate Verifier(v: string) {
    && 43 <= |v| <= 128
    && forall i :: 0 <= i < |v| ==> Base64Url(v[i]) || v[i] == '.' || v[i] == '~'
  }

  predicate Operation(v: string) {
    && |v| == 32
    && forall i :: 0 <= i < |v| ==> '0' <= v[i] <= '9' || 'a' <= v[i] <= 'f' || 'A' <= v[i] <= 'F'
  }

  predicate CanonicalUser(v: string) {
    && |v| == 36
    && forall i :: 0 <= i < |v| ==>
      if i in {8, 13, 18, 23} then v[i] == '-' else '0' <= v[i] <= '9' || 'a' <= v[i] <= 'f'
  }

  // Credential-bearing values

  datatype Grant = Grant(
    user: string, family: string, generation: nat, epoch: nat,
    access: Credential, refresh: Credential, revoke: Credential,
    expiresAt: nat, displayName: string)

  datatype AttemptSecret = AttemptSecret(
    authorizationUrl: string, loginCookie: string, browserCookie: string, nonce: string,
    providerCookies: string, providerExpires: nat, displayName: string, handoffCode: string)

  datatype FamilySecret = FamilySecret(cookies: string, grant: Grant)

  datatype ExchangeResult = ExchangeResult(user: string, session: Grant, displayName: string)

  datatype Purpose =
    | ForAttempt(id: string)
    | ForFamily(id: string)
    | ForHandoff(id: string)
    | ForRefresh(key: ReceiptKey)

  datatype Payload =
    | OfAttempt(attempt: AttemptSecret)
    | OfFamily(family: FamilySecret)
    | OfHandoff(handoff: ExchangeResult)
    | OfGrant(grant: Grant)

  datatype Sealed = Blank | Box(purpose: Purpose, payload: Payload)

  function OpenAttempt(id: string, box: Sealed): Option<AttemptSecret> {
    if box.Box? && box.purpose == ForAttempt(id) && box.payload.OfAttempt? then Some(box.payload.attempt) else None
  }

  function OpenFamily(id: string, box: Sealed): Option<FamilySecret> {
    if box.Box? && box.purpose == ForFamily(id) && box.payload.OfFamily? then Some(box.payload.family) else None
  }

  function OpenHandoff(id: string, box: Sealed): Option<ExchangeResult> {
    if box.Box? && box.purpose == ForHandoff(id) && box.payload.OfHandoff? then Some(box.payload.handoff) else None
  }

  function OpenReceipt(key: ReceiptKey, box: Sealed): Option<Grant> {
    if box.Box? && box.purpose == ForRefresh(key) && box.payload.OfGrant? then Some(box.payload.grant) else None
  }

  // Tables

  datatype AttemptPhase = New | Authorizing | Verifying | Confirm | Ready | Redeemed | Failed | Cancelled

  datatype Attempt = Attempt(
    stateHash: Digest, challenge: Digest, expected: string, startEpoch: nat, epoch: Option<nat>,
    user: string, port: nat, created: nat, expires: nat, phase: AttemptPhase,
    cookieHash: Digest, confirmHash: Digest, codeHash: Digest, handoffExpires: Option<nat>,
    redemption: string, receiptExpires: Option<nat>, family: string, secret: Sealed, receipt: Sealed)

  datatype FamilyPhase = Active | Refreshing | Reauth | Revoked

  datatype Family = Family(
    user: string, epoch: nat, generation: nat, phase: FamilyPhase,
    accessHash: Digest, refreshHash: Digest, revokeHash: Digest,
    expiresAt: nat, secret: Sealed, lease: string, leaseExpires: nat)

  datatype Epoch = Epoch(number: nat, changedAt: nat)

  datatype ReceiptKey = ReceiptKey(oldHash: Digest, operation: string, generation: nat)

  datatype Receipt = Receipt(family: string, expiresAt: nat, result: Sealed)

  datatype Db = Db(
    epochs: map<string, Epoch>,
    attempts: map<string, Attempt>,
    families: map<string, Family>,
    receipts: map<ReceiptKey, Receipt>)

  // Requests, upstream answers and the memory of a call between its two transactions

  datatype LoginRequest = LoginRequest(challenge: Digest, destination: string, port: nat, expected: Option<string>)

  datatype ProviderLogin =
    | LoginRefused(error: NativeError)
    | LoginReady(state: string, authorizationUrl: string, loginCookie: string)

  datatype ExchangeRequest = ExchangeRequest(
    transaction: string, code: string, verifier: string, redemption: string,
    environment: string, destination: string)

  datatype CancelRequest = CancelRequest(
    transaction: string, verifier: string, environment: string, destination: string)

  datatype RefreshRequest = RefreshRequest(operation: string, generation: U64)

  datatype SessionRef = SessionRef(family: string, accessHash: Digest, generation: nat, epoch: nat)

  /** What the identity provider answered to the code exchange. LoginUnusable
      stands for a reply without usable cookies or expiry. */
  datatype CodeAnswer =
    | CodeRefused(error: NativeError)
    | LoginUnusable(error: NativeError)
    | CodeAccepted(user: string, cookies: string, expires: nat, displayName: string)

  /** What the provider answered to a renewal. RenewalUnusable stands for missing
      cookies, a failed principal lookup or an unreadable expiry. */
  datatype RenewalAnswer =
    | RenewalRefused(error: NativeError)
    | RenewalUnusable(error: NativeError)
    | Renewed(user: string, cookies: string, expires: nat, displayName: string)

  datatype Call =
    | CallbackCall(id: string, attempt: Attempt, attemptSecret: AttemptSecret)
    | RefreshCall(key: ReceiptKey, family: string, row: Family, familySecret: FamilySecret, lease: string)
    | RecheckCall(reference: SessionRef, secret: FamilySecret)

  datatype Reply =
    | Rejected(error: NativeError)
    | Done
    | Started(id: string)
    | SentToProvider(url: string, cookie: string)
    | Waiting(call: Call)
    | AskConfirmation(id: string, port: nat, confirmNonce: string)
    | HandedOff(port: nat, id: string, code: string)
    | Exchanged(result: ExchangeResult)
    | Granted(grant: Grant)
    | Opened(secret: FamilySecret)
    | Admitted(user: string)
}
