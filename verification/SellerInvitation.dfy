/**
 Seller invitations as interleaved small steps: activations (claim, sign-up at the provider, link)
 and rotations run against one token row and one user row per seller, statement by statement. Clock
 readings are statements of their own, so a time may be old by the time it is used. Row locks of the
 linking transaction are held to its end; a statement that has to wait, or does not apply, changes nothing.
 */
module SellerInvitation {
  import opened Options

  type ClientId = nat
  type Hash = nat
  type AuthId = nat

  const INVITATION_TTL_MS: nat := 24 * 60 * 60 * 1000
  const STALE_CLAIM_MS: nat := 15 * 60 * 1000

  /** A token row. `born` (last rotation) and `holder` (whose claim it carries) are bookkeeping. */
  datatype Token = Token(
    hash: Hash, expiresAt: int, claimedAt: Option<int>, consumedAt: Option<int>,
    born: int, holder: Option<ClientId>)

  /** One seller: the user's identity link, and the one token row its unique user id allows. */
  datatype Seller = Seller(authUser: Option<AuthId>, token: Option<Token>)

  datatype Pc =
    | Idle
      // activateSellerInvitation
    | Found(u: nat, hash: Hash)
    | Stamped(u: nat, hash: Hash, t: int)
    | Holding(u: nat, t: int)                 // claimed; sign-up under way
    | Failing(u: nat, t: int)                 // sign-up failed; claim to be released
    | SignedUp(u: nat, t: int, auth: AuthId)
    | Linking(u: nat, t: int, auth: AuthId)   // user row written, not committed
    | Consuming(u: nat, t: int, auth: AuthId) // token row written, not committed
      // resendAdminSellerInvitation
    | Rotating(u: nat, readAt: int)
    | Missed(u: nat, readAt: int)

  /** `identityLock`: uncommitted entries of the unique index on identities. `accounts`: identities of other users. */
  datatype State = State(
    now: int,
    sellers: seq<Seller>,
    clients: map<ClientId, Pc>,
    userLock: map<nat, ClientId>,
    tokenLock: map<nat, ClientId>,
    identityLock: map<AuthId, ClientId>,
    used: set<Hash>,
    accounts: set<AuthId>)

  function At(s: State, c: ClientId): Pc {
    if c in s.clients then s.clients[c] else Idle
  }

  function Go(s: State, c: ClientId, pc: Pc): State {
    s.(clients := s.clients[c := pc])
  }

  predicate Free(locks: map<nat, ClientId>, u: nat, c: ClientId) {
    u in locks ==> locks[u] == c
  }

  function Released(locks: map<nat, ClientId>, c: ClientId): map<nat, ClientId> {
    map u | u in locks && locks[u] != c :: locks[u]
  }

  function EndTransaction(s: State, c: ClientId): State {
    Go(s.(userLock := Released(s.userLock, c), tokenLock := Released(s.tokenLock, c),
          identityLock := Released(s.identityLock, c)), c, Idle)
  }

  /** The identity is linked to a seller or to some other user. */
  predicate Mapped(sellers: seq<Seller>, accounts: set<AuthId>, auth: AuthId) {
    auth in accounts || exists u :: 0 <= u < |sellers| && sellers[u].authUser == Some(auth)
  }

  function WithToken(s: State, u: nat, token: Token): State
    requires u < |s.sellers|
  {
    s.(sellers := s.sellers[u := s.sellers[u].(token := Some(token))])
  }

  // ---------- Activation ----------

  predicate Claimable(token: Token, hash: Hash, at: int) {
    token.hash == hash && token.expiresAt > at && token.claimedAt.None? && token.consumedAt.None?
  }

  function Find(s: State, c: ClientId, u: nat, hash: Hash): State {
    if At(s, c) != Idle || u >= |s.sellers| || s.sellers[u].token.None?
      || !Claimable(s.sellers[u].token.value, hash, s.now) then s
    else Go(s, c, Found(u, hash))
  }

  function Stamp(s: State, c: ClientId): State {
    match At(s, c)
    case Found(u, hash) => Go(s, c, Stamped(u, hash, s.now))
    case _ => s
  }

  function Claim(s: State, c: ClientId): State {
    match At(s, c)
    case Stamped(u, hash, t) =>
      if u >= |s.sellers| || s.sellers[u].token.None? || !Claimable(s.sellers[u].token.value, hash, t)
        then Go(s, c, Idle)
      else if !Free(s.tokenLock, u, c) then s
      else Go(WithToken(s, u, s.sellers[u].token.value.(claimedAt := Some(t), holder := Some(c))), c, Holding(u, t))
    case _ => s
  }

  /** The provider's answer arrives: an identity, or a failure. */
  function SignUp(s: State, c: ClientId, identity: Option<AuthId>): State {
    match At(s, c)
    case Holding(u, t) => Go(s, c, if identity.Some? then SignedUp(u, t, identity.value) else Failing(u, t))
    case _ => s
  }

  /** The row still carries the claim made at t, as far as the `where` clauses can tell. */
  predicate Matches(s: State, u: nat, t: int) {
    u < |s.sellers| && s.sellers[u].token.Some?
    && s.sellers[u].token.value.claimedAt == Some(t) && s.sellers[u].token.value.consumedAt.None?
  }

  function Release(s: State, c: ClientId): State {
    match At(s, c)
    case Failing(u, t) =>
      if !Matches(s, u, t) then Go(s, c, Idle)
      else if !Free(s.tokenLock, u, c) then s
      else Go(WithToken(s, u, s.sellers[u].token.value.(claimedAt := None, holder := None)), c, Idle)
    case _ => s
  }

  /** The identity column is unique: an identity that is mapped already rolls the transaction back. */
  function LinkUser(s: State, c: ClientId): State {
    match At(s, c)
    case SignedUp(u, t, auth) =>
      if u >= |s.sellers| || s.sellers[u].authUser.Some? then EndTransaction(s, c)
      else if !Free(s.userLock, u, c) then s
      else if Mapped(s.sellers, s.accounts, auth) then EndTransaction(s, c)
      else if !Free(s.identityLock, auth, c) then s
      else Go(s.(userLock := s.userLock[u := c], identityLock := s.identityLock[auth := c]), c, Linking(u, t, auth))
    case _ => s
  }

  function Consume(s: State, c: ClientId): State {
    match At(s, c)
    case Linking(u, t, auth) =>
      if !Matches(s, u, t) then EndTransaction(s, c)
      else if !Free(s.tokenLock, u, c) then s
      else Go(s.(tokenLock := s.tokenLock[u := c]), c, Consuming(u, t, auth))
    case _ => s
  }

  function CommitLink(s: State, c: ClientId): State {
    match At(s, c)
    case Consuming(u, t, auth) =>
      if u >= |s.sellers| || s.sellers[u].token.None? then EndTransaction(s, c)
      else
        var seller := Seller(Some(auth), Some(s.sellers[u].token.value.(consumedAt := Some(s.now))));
        EndTransaction(s.(sellers := s.sellers[u := seller]), c)
    case _ => s
  }

  // ---------- Rotation ----------

  /** Reads the user and the clock. A seller whose identity is linked takes another path. */
  function StartRotation(s: State, c: ClientId, u: nat): State {
    if At(s, c) != Idle || u >= |s.sellers| || s.sellers[u].authUser.Some? then s
    else Go(s, c, Rotating(u, s.now))
  }

  predicate Rotatable(token: Token, readAt: int) {
    token.claimedAt.None? || token.consumedAt.Some? || token.claimedAt.value < readAt - STALE_CLAIM_MS
  }

  function Fresh(s: State, hash: Hash, readAt: int): Token {
    Token(hash, readAt + INVITATION_TTL_MS, None, None, s.now, None)
  }

  /** The token is random, so its hash is one that was never stored; nobody sees it before this write. */
  function Install(s: State, u: nat, hash: Hash, readAt: int): State
    requires u < |s.sellers|
  {
    WithToken(s, u, Fresh(s, hash, readAt)).(used := s.used + {hash})
  }

  function Rotate(s: State, c: ClientId, hash: Hash): State {
    match At(s, c)
    case Rotating(u, readAt) =>
      if u >= |s.sellers| || s.sellers[u].token.None? || !Rotatable(s.sellers[u].token.value, readAt)
        then Go(s, c, Missed(u, readAt))
      else if !Free(s.tokenLock, u, c) || hash in s.used then s
      else Go(Install(s, u, hash, readAt), c, Idle)
    case _ => s
  }

  /** No row matched: refuse if there is one, create it if there is none. */
  function CreateMissing(s: State, c: ClientId, hash: Hash): State {
    match At(s, c)
    case Missed(u, readAt) =>
      if u >= |s.sellers| || s.sellers[u].token.Some? then Go(s, c, Idle)
      else if hash in s.used then s
      else Go(Install(s, u, hash, readAt), c, Idle)
    case _ => s
  }

  // ---------- The rest of the world ----------

  function AddSeller(s: State, hash: Option<Hash>): State {
    if hash.Some? && hash.value in s.used then s
    else
      var token := if hash.Some? then Some(Fresh(s, hash.value, s.now)) else None;
      s.(sellers := s.sellers + [Seller(None, token)], used := if hash.Some? then s.used + {hash.value} else s.used)
  }

  /** Sign-in elsewhere creates a user for an identity, unless it is mapped or about to be. */
  function Provision(s: State, auth: AuthId): State {
    if Mapped(s.sellers, s.accounts, auth) || auth in s.identityLock then s else s.(accounts := s.accounts + {auth})
  }

  function Tick(s: State, ms: nat): State {
    s.(now := s.now + ms)
  }

  datatype Step =
    | STick(ms: nat)
    | SAddSeller(invited: Option<Hash>)
    | SProvision(auth: AuthId)
    | SFind(c: ClientId, u: nat, hash: Hash)
    | SStamp(c: ClientId)
    | SClaim(c: ClientId)
    | SSignUp(c: ClientId, identity: Option<AuthId>)
    | SRelease(c: ClientId)
    | SLinkUser(c: ClientId)
    | SConsume(c: ClientId)
    | SCommitLink(c: ClientId)
    | SStartRotation(c: ClientId, u: nat)
    | SRotate(c: ClientId, hash: Hash)
    | SCreateMissing(c: ClientId, hash: Hash)
    | SCrash(c: ClientId)

  function Apply(s: State, step: Step): State {
    match step
    case STick(ms) => Tick(s, ms)
    case SAddSeller(hash) => AddSeller(s, hash)
    case SProvision(auth) => Provision(s, auth)
    case SFind(c, u, hash) => Find(s, c, u, hash)
    case SStamp(c) => Stamp(s, c)
    case SClaim(c) => Claim(s, c)
    case SSignUp(c, identity) => SignUp(s, c, identity)
    case SRelease(c) => Release(s, c)
    case SLinkUser(c) => LinkUser(s, c)
    case SConsume(c) => Consume(s, c)
    case SCommitLink(c) => CommitLink(s, c)
    case SStartRotation(c, u) => StartRotation(s, c, u)
    case SRotate(c, hash) => Rotate(s, c, hash)
    case SCreateMissing(c, hash) => CreateMissing(s, c, hash)
    case SCrash(c) => EndTransaction(s, c)
  }

  /** The step belongs to no client of either call. */
  predicate OfTheWorld(step: Step) {
    step.STick? || step.SAddSeller? || step.SProvision?
  }

  function Run(s: State, steps: seq<Step>): State
    decreases |steps|
  {
    if steps == [] then s else Apply(Run(s, steps[..|steps| - 1]), steps[|steps| - 1])
  }

  function Init(now: int): State {
    State(now, [], map[], map[], map[], map[], {}, {})
  }

  // ---------- What every reachable state keeps ----------

  predicate TokenOk(s: State, token: Token) {
    && token.hash in s.used
    && token.born <= s.now
    && (token.holder.Some? <==> token.claimedAt.Some?)
    && (token.claimedAt.Some? ==> token.born <= token.claimedAt.value <= s.now)
    && (token.consumedAt.Some? ==> token.claimedAt.Some?)
  }

  predicate SellerOk(s: State, seller: Seller) {
    seller.token.Some? ==>
      && TokenOk(s, seller.token.value)
      && (seller.token.value.consumedAt.Some? ==> seller.authUser.Some?)
  }

  /** c's claim of time t is the one the row carries. */
  predicate Mine(s: State, c: ClientId, u: nat, t: int) {
    Matches(s, u, t) && s.sellers[u].token.value.holder == Some(c)
  }

  /** c's claim was taken over: the row has been rotated since. */
  predicate Lost(s: State, c: ClientId, u: nat, t: int) {
    u < |s.sellers| && s.sellers[u].token.Some? && t < s.sellers[u].token.value.born
      && s.sellers[u].token.value.holder != Some(c)
  }

  predicate ClaimOk(s: State, c: ClientId, u: nat, t: int) {
    t <= s.now && (Mine(s, c, u, t) || Lost(s, c, u, t))
  }

  /** The uncommitted link: user and identity are still unlinked, and both are c's to link. */
  predicate LinkOk(s: State, c: ClientId, u: nat, auth: AuthId) {
    && u in s.userLock && s.userLock[u] == c && u < |s.sellers| && s.sellers[u].authUser.None?
    && auth in s.identityLock && s.identityLock[auth] == c && !Mapped(s.sellers, s.accounts, auth)
  }

  predicate ClientOk(s: State, c: ClientId, pc: Pc) {
    match pc
    case Idle => true
    case Found(u, hash) => u < |s.sellers| && s.sellers[u].token.Some? && hash in s.used
    case Stamped(u, hash, t) =>
      && u < |s.sellers| && s.sellers[u].token.Some? && hash in s.used && t <= s.now
      && (s.sellers[u].token.value.hash == hash ==> s.sellers[u].token.value.born <= t)
    case Holding(u, t) => ClaimOk(s, c, u, t)
    case Failing(u, t) => ClaimOk(s, c, u, t)
    case SignedUp(u, t, _) => ClaimOk(s, c, u, t)
    case Linking(u, t, auth) => ClaimOk(s, c, u, t) && LinkOk(s, c, u, auth)
    case Consuming(u, t, auth) =>
      && t <= s.now && Mine(s, c, u, t)
      && LinkOk(s, c, u, auth)
      && u in s.tokenLock && s.tokenLock[u] == c
    case Rotating(u, readAt) => u < |s.sellers| && readAt <= s.now
    case Missed(u, readAt) => u < |s.sellers| && readAt <= s.now
  }

  /** No two users are linked to one identity. */
  predicate OneUserPerIdentity(sellers: seq<Seller>, accounts: set<AuthId>) {
    && (forall u, v :: 0 <= u < v < |sellers| && sellers[u].authUser.Some? ==>
          sellers[u].authUser != sellers[v].authUser)
    && (forall u :: 0 <= u < |sellers| && sellers[u].authUser.Some? ==> sellers[u].authUser.value !in accounts)
  }

  predicate Inv(s: State) {
    && OneUserPerIdentity(s.sellers, s.accounts)
    && (forall u :: 0 <= u < |s.sellers| ==> SellerOk(s, s.sellers[u]))
    && (forall c :: c in s.clients ==> ClientOk(s, c, s.clients[c]))
  }

  /** A linked identity is never replaced, and a token row never disappears. */
  predicate Later(s: State, t: State) {
    && s.now <= t.now && s.used <= t.used && |s.sellers| <= |t.sellers|
    && forall u :: 0 <= u < |s.sellers| ==>
         && (s.sellers[u].authUser.Some? ==> t.sellers[u].authUser == s.sellers[u].authUser)
         && (s.sellers[u].token.Some? ==> t.sellers[u].token.Some?)
  }

  /** Clients depend on the rows and on their own locks only. */
  lemma LocksAside(s: State, t: State, d: ClientId, pc: Pc)
    requires ClientOk(s, d, pc) && t.sellers == s.sellers && t.accounts == s.accounts
    requires t.now == s.now && t.used == s.used
    requires forall a :: a in s.identityLock && s.identityLock[a] == d ==> a in t.identityLock && t.identityLock[a] == d
    requires forall u :: u in s.userLock && s.userLock[u] == d ==> u in t.userLock && t.userLock[u] == d
    requires forall u :: u in s.tokenLock && s.tokenLock[u] == d ==> u in t.tokenLock && t.tokenLock[u] == d
    ensures ClientOk(t, d, pc)
  {
    hide Mapped;
  }

  /** A client that only moves on has to answer for its own position. */
  lemma GoKeepsInv(s: State, c: ClientId, pc: Pc)
    requires Inv(s) && ClientOk(s, c, pc)
    ensures Inv(Go(s, c, pc)) && Later(s, Go(s, c, pc))
  {
    hide Mapped, OneUserPerIdentity;
    var t := Go(s, c, pc);
    forall d | d in t.clients ensures ClientOk(t, d, t.clients[d]) {
      LocksAside(s, t, d, if d == c then pc else s.clients[d]);
    }
  }

  /**
   A new token turns the holder of a claim it may replace into a loser, and nobody else: on this row every claim
   that was the row's is lost and lost ones stay lost, and on every other row nothing changes.
   */
  lemma InstallSparesClients(s: State, u: nat, hash: Hash, readAt: int, d: ClientId, pc: Pc)
    requires ClientOk(s, d, pc) && u < |s.sellers| && SellerOk(s, s.sellers[u]) && hash !in s.used && readAt <= s.now
    requires s.sellers[u].token.Some? ==> Rotatable(s.sellers[u].token.value, readAt)
    requires !(pc.Consuming? && pc.u == u)
    ensures ClientOk(Install(s, u, hash, readAt), d, pc)
    ensures forall t :: Mine(s, d, u, t) ==> Lost(Install(s, u, hash, readAt), d, u, t)
    ensures forall t :: t <= s.now && Lost(s, d, u, t) ==> Lost(Install(s, u, hash, readAt), d, u, t)
    ensures forall v, t :: v != u ==>
              && (Mine(Install(s, u, hash, readAt), d, v, t) <==> Mine(s, d, v, t))
              && (Lost(Install(s, u, hash, readAt), d, v, t) <==> Lost(s, d, v, t))
  {
  }

  lemma TickKeepsInv(s: State, ms: nat)
    requires Inv(s)
    ensures Inv(Tick(s, ms)) && Later(s, Tick(s, ms))
  {
  }

  lemma NewSellerSparesClients(s: State, t: State, d: ClientId, pc: Pc)
    requires ClientOk(s, d, pc) && s.used <= t.used && t == s.(sellers := t.sellers, used := t.used)
    requires |t.sellers| == |s.sellers| + 1 && s.sellers <= t.sellers && t.sellers[|s.sellers|].authUser.None?
    ensures ClientOk(t, d, pc)
  {
  }

  lemma AddSellerKeepsInv(s: State, invited: Option<Hash>)
    requires Inv(s)
    ensures Inv(AddSeller(s, invited)) && Later(s, AddSeller(s, invited))
  {
    var t := AddSeller(s, invited);
    if t != s {
      forall d | d in t.clients ensures ClientOk(t, d, t.clients[d]) {
        NewSellerSparesClients(s, t, d, s.clients[d]);
      }
    }
  }

  lemma ProvisionKeepsInv(s: State, auth: AuthId)
    requires Inv(s)
    ensures Inv(Provision(s, auth)) && Later(s, Provision(s, auth))
  {
  }

  lemma FindKeepsInv(s: State, c: ClientId, u: nat, hash: Hash)
    requires Inv(s)
    ensures Inv(Find(s, c, u, hash)) && Later(s, Find(s, c, u, hash))
  {
    assert ClientOk(s, c, At(s, c));
    if Find(s, c, u, hash) != s {
      GoKeepsInv(s, c, At(Find(s, c, u, hash), c));
    }
  }

  lemma StampKeepsInv(s: State, c: ClientId)
    requires Inv(s)
    ensures Inv(Stamp(s, c)) && Later(s, Stamp(s, c))
  {
    assert ClientOk(s, c, At(s, c));
    if Stamp(s, c) != s {
      GoKeepsInv(s, c, At(Stamp(s, c), c));
    }
  }

  /** Writing c's claim, or taking it back, leaves everybody else's view of the row as it was. */
  lemma ClaimSparesClients(s: State, u: nat, token: Token, c: ClientId, d: ClientId, pc: Pc)
    requires ClientOk(s, d, pc) && u < |s.sellers| && s.sellers[u].token.Some? && d != c
    requires var was := s.sellers[u].token.value;
             && token == was.(claimedAt := token.claimedAt, holder := token.holder)
             && (was.holder.None? || was.holder == Some(c)) && (token.holder.None? || token.holder == Some(c))
    requires s.sellers[u].token.value.holder.Some? <==> s.sellers[u].token.value.claimedAt.Some?
    ensures ClientOk(WithToken(s, u, token), d, pc)
  {
  }

  lemma ClaimKeepsInv(s: State, c: ClientId)
    requires Inv(s)
    ensures Inv(Claim(s, c)) && Later(s, Claim(s, c))
  {
    var t := Claim(s, c);
    assert ClientOk(s, c, At(s, c));
    if At(s, c).Stamped? && t != s {
      if At(t, c).Idle? {
        GoKeepsInv(s, c, Idle);
      } else {
        ClaimChangeKeepsInv(s, c, At(s, c).u, t.sellers[At(s, c).u].token.value, At(t, c));
      }
    }
  }

  lemma ReleaseKeepsInv(s: State, c: ClientId)
    requires Inv(s)
    ensures Inv(Release(s, c)) && Later(s, Release(s, c))
  {
    assert ClientOk(s, c, At(s, c));
    if At(s, c).Failing? {
      var u := At(s, c).u;
      if !Matches(s, u, At(s, c).t) {
        GoKeepsInv(s, c, Idle);
      } else if Free(s.tokenLock, u, c) {
        ClaimChangeKeepsInv(s, c, u, s.sellers[u].token.value.(claimedAt := None, holder := None), Idle);
      }
    }
  }

  lemma ClaimChangeKeepsInv(s: State, c: ClientId, u: nat, token: Token, pc: Pc)
    requires Inv(s) && u < |s.sellers| && s.sellers[u].token.Some?
    requires var was := s.sellers[u].token.value;
             && token == was.(claimedAt := token.claimedAt, holder := token.holder)
             && (was.holder.None? || was.holder == Some(c)) && (token.holder.None? || token.holder == Some(c))
    requires SellerOk(s, s.sellers[u].(token := Some(token))) && ClientOk(Go(WithToken(s, u, token), c, pc), c, pc)
    ensures Inv(Go(WithToken(s, u, token), c, pc)) && Later(s, Go(WithToken(s, u, token), c, pc))
  {
    var t := Go(WithToken(s, u, token), c, pc);
    assert SellerOk(s, s.sellers[u]);
    forall d | d in t.clients ensures ClientOk(t, d, t.clients[d]) {
      if d != c {
        ClaimSparesClients(s, u, token, c, d, s.clients[d]);
        LocksAside(WithToken(s, u, token), t, d, s.clients[d]);
      }
    }
    forall v | 0 <= v < |t.sellers| ensures SellerOk(t, t.sellers[v]) {
      assert SellerOk(s, s.sellers[v]);
    }
  }

  lemma SignUpKeepsInv(s: State, c: ClientId, identity: Option<AuthId>)
    requires Inv(s)
    ensures Inv(SignUp(s, c, identity)) && Later(s, SignUp(s, c, identity))
  {
    assert ClientOk(s, c, At(s, c));
    if At(s, c).Holding? {
      GoKeepsInv(s, c, At(SignUp(s, c, identity), c));
    }
  }

  lemma LinkUserKeepsInv(s: State, c: ClientId)
    requires Inv(s)
    ensures Inv(LinkUser(s, c)) && Later(s, LinkUser(s, c))
  {
    hide OneUserPerIdentity;
    var t := LinkUser(s, c);
    assert ClientOk(s, c, At(s, c));
    if At(t, c).Linking? && t != s {
      forall d | d in t.clients ensures ClientOk(t, d, t.clients[d]) {
        if d != c {
          LocksAside(s, t, d, s.clients[d]);
        }
      }
    } else if t != s {
      EndTransactionKeepsInv(s, c);
    }
  }

  lemma ConsumeKeepsInv(s: State, c: ClientId)
    requires Inv(s)
    ensures Inv(Consume(s, c)) && Later(s, Consume(s, c))
  {
    assert ClientOk(s, c, At(s, c));
  }

  lemma CommitLinkKeepsInv(s: State, c: ClientId)
    requires Inv(s)
    ensures Inv(CommitLink(s, c)) && Later(s, CommitLink(s, c))
  {
    assert ClientOk(s, c, At(s, c));
  }

  lemma StartRotationKeepsInv(s: State, c: ClientId, u: nat)
    requires Inv(s)
    ensures Inv(StartRotation(s, c, u)) && Later(s, StartRotation(s, c, u))
  {
    assert ClientOk(s, c, At(s, c));
    if StartRotation(s, c, u) != s {
      GoKeepsInv(s, c, At(StartRotation(s, c, u), c));
    }
  }

  lemma InstallKeepsInv(s: State, c: ClientId, u: nat, hash: Hash, readAt: int)
    requires Inv(s) && u < |s.sellers| && hash !in s.used && readAt <= s.now
    requires s.sellers[u].token.Some? ==> Rotatable(s.sellers[u].token.value, readAt)
    requires forall d :: d != c && d in s.clients && s.clients[d].Consuming? ==> s.clients[d].u != u
    ensures Inv(Go(Install(s, u, hash, readAt), c, Idle)) && Later(s, Go(Install(s, u, hash, readAt), c, Idle))
  {
    var t := Go(Install(s, u, hash, readAt), c, Idle);
    forall d | d in t.clients ensures ClientOk(t, d, t.clients[d]) {
      if d != c {
        InstallSparesClients(s, u, hash, readAt, d, s.clients[d]);
        LocksAside(Install(s, u, hash, readAt), t, d, s.clients[d]);
      }
    }
    forall v | 0 <= v < |t.sellers| ensures SellerOk(t, t.sellers[v]) {
      assert SellerOk(s, s.sellers[v]);
    }
  }

  lemma RotateKeepsInv(s: State, c: ClientId, hash: Hash)
    requires Inv(s)
    ensures Inv(Rotate(s, c, hash)) && Later(s, Rotate(s, c, hash))
  {
    assert ClientOk(s, c, At(s, c));
    if At(s, c).Rotating? && Rotate(s, c, hash) != s {
      var Rotating(u, readAt) := At(s, c);
      if At(Rotate(s, c, hash), c).Missed? {
        GoKeepsInv(s, c, Missed(u, readAt));
      } else {
        InstallKeepsInv(s, c, u, hash, readAt);
      }
    }
  }

  lemma CreateMissingKeepsInv(s: State, c: ClientId, hash: Hash)
    requires Inv(s)
    ensures Inv(CreateMissing(s, c, hash)) && Later(s, CreateMissing(s, c, hash))
  {
    assert ClientOk(s, c, At(s, c));
    if At(s, c).Missed? && CreateMissing(s, c, hash) != s {
      var Missed(u, readAt) := At(s, c);
      if s.sellers[u].token.Some? {
        GoKeepsInv(s, c, Idle);
      } else {
        InstallKeepsInv(s, c, u, hash, readAt);
      }
    }
  }

  lemma EndTransactionKeepsInv(s: State, c: ClientId)
    requires Inv(s)
    ensures Inv(EndTransaction(s, c)) && Later(s, EndTransaction(s, c))
  {
    assert ClientOk(s, c, At(s, c));
  }

  lemma StepKeepsInv(s: State, step: Step)
    requires Inv(s)
    ensures Inv(Apply(s, step)) && Later(s, Apply(s, step))
  {
    match step
    case STick(ms) => TickKeepsInv(s, ms);
    case SAddSeller(invited) => AddSellerKeepsInv(s, invited);
    case SProvision(auth) => ProvisionKeepsInv(s, auth);
    case SFind(c, u, hash) => FindKeepsInv(s, c, u, hash);
    case SStamp(c) => StampKeepsInv(s, c);
    case SClaim(c) => ClaimKeepsInv(s, c);
    case SSignUp(c, identity) => SignUpKeepsInv(s, c, identity);
    case SRelease(c) => ReleaseKeepsInv(s, c);
    case SLinkUser(c) => LinkUserKeepsInv(s, c);
    case SConsume(c) => ConsumeKeepsInv(s, c);
    case SCommitLink(c) => CommitLinkKeepsInv(s, c);
    case SStartRotation(c, u) => StartRotationKeepsInv(s, c, u);
    case SRotate(c, hash) => RotateKeepsInv(s, c, hash);
    case SCreateMissing(c, hash) => CreateMissingKeepsInv(s, c, hash);
    case SCrash(c) => EndTransactionKeepsInv(s, c);
  }

  lemma {:induction false} RunKeepsInv(now: int, steps: seq<Step>)
    ensures Inv(Run(Init(now), steps))
    decreases |steps|
  {
    if steps != [] {
      RunKeepsInv(now, steps[..|steps| - 1]);
      StepKeepsInv(Run(Init(now), steps[..|steps| - 1]), steps[|steps| - 1]);
    }
  }
}
