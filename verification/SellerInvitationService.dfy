/** What invitations guarantee on every schedule, and the two calls as the programs they are. */
module SellerInvitationService {
  import opened Options
  import opened SellerInvitation

  function Reached(now: int, steps: seq<Step>): State {
    Run(Init(now), steps)
  }

  // ---------- Every schedule ----------

  /** A consumed token implies a linked user. */
  lemma ConsumedMeansLinked(now: int, steps: seq<Step>, u: nat)
    requires u < |Reached(now, steps).sellers| && Reached(now, steps).sellers[u].token.Some?
    requires Reached(now, steps).sellers[u].token.value.consumedAt.Some?
    ensures Reached(now, steps).sellers[u].authUser.Some?
  {
    RunKeepsInv(now, steps);
    assert SellerOk(Reached(now, steps), Reached(now, steps).sellers[u]);
  }

  /**
   Whatever links a user is the commit of one activation, and that activation holds the row's claim
   at that moment, by identity and not just by timestamp. No other activation can be at that point.
   */
  lemma OnlyTheHolderLinks(now: int, steps: seq<Step>, step: Step, u: nat)
    requires u < |Reached(now, steps).sellers|
    requires Apply(Reached(now, steps), step).sellers[u].authUser != Reached(now, steps).sellers[u].authUser
    ensures Reached(now, steps).sellers[u].authUser.None?
    ensures
      var s := Reached(now, steps);
      && step.SCommitLink? && At(s, step.c).Consuming? && At(s, step.c).u == u
      && Mine(s, step.c, u, At(s, step.c).t)
      && Apply(s, step).sellers[u].authUser == Some(At(s, step.c).auth)
      && forall d :: d != step.c ==>
           && !(At(s, d).Linking? && At(s, d).u == u)
           && !(At(s, d).Consuming? && At(s, d).u == u)
  {
    hide Mapped, OneUserPerIdentity, Apply;
    var s := Reached(now, steps);
    RunKeepsInv(now, steps);
    OnlyCommitsLink(s, step, u);
    assert ClientOk(s, step.c, At(s, step.c));
    forall d | d != step.c
      ensures !(At(s, d).Linking? && At(s, d).u == u) && !(At(s, d).Consuming? && At(s, d).u == u)
    {
      assert ClientOk(s, d, At(s, d));
    }
  }

  lemma OnlyCommitsLink(s: State, step: Step, u: nat)
    requires u < |s.sellers|
    ensures u < |Apply(s, step).sellers|
    ensures Apply(s, step).sellers[u].authUser != s.sellers[u].authUser ==>
              && step.SCommitLink? && At(s, step.c).Consuming? && At(s, step.c).u == u
              && Apply(s, step).sellers[u].authUser == Some(At(s, step.c).auth)
  {
    hide Mapped;
    if !OfTheWorld(step) && !OfALink(step) {
      OtherCallsLinkNobody(s, step, u);
    }
  }

  /** The statements of the linking transaction. */
  predicate OfALink(step: Step) {
    step.SLinkUser? || step.SConsume? || step.SCommitLink?
  }

  lemma OtherCallsLinkNobody(s: State, step: Step, u: nat)
    requires !OfTheWorld(step) && !OfALink(step) && u < |s.sellers|
    ensures u < |Apply(s, step).sellers| && Apply(s, step).sellers[u].authUser == s.sellers[u].authUser
  {
    hide Mapped, Claimable, Rotatable, Fresh;
    if step.SRotate? {
      RotationLinksNobody(s, step.c, step.hash, u);
    }
  }

  lemma RotationLinksNobody(s: State, c: ClientId, hash: Hash, u: nat)
    requires u < |s.sellers|
    ensures u < |Rotate(s, c, hash).sellers| && Rotate(s, c, hash).sellers[u].authUser == s.sellers[u].authUser
  {
    hide Rotatable, Fresh;
  }

  /** A user is linked by at most one activation: the identity never changes once it is there. */
  lemma {:induction false} LinkedOnce(now: int, steps: seq<Step>, more: seq<Step>, u: nat)
    requires u < |Reached(now, steps).sellers| && Reached(now, steps).sellers[u].authUser.Some?
    ensures u < |Reached(now, steps + more).sellers|
    ensures Reached(now, steps + more).sellers[u].authUser == Reached(now, steps).sellers[u].authUser
    decreases |more|
  {
    if more == [] {
      assert steps + more == steps;
    } else {
      var shorter := steps + more[..|more| - 1];
      assert (steps + more)[..|steps + more| - 1] == shorter;
      LinkedOnce(now, steps, more[..|more| - 1], u);
      RunKeepsInv(now, shorter);
      StepKeepsInv(Reached(now, shorter), more[|more| - 1]);
    }
  }

  /** And an identity is linked to at most one user, be it a seller or another account. */
  lemma IdentitiesAreLinkedOnce(now: int, steps: seq<Step>, u: nat, v: nat)
    requires u < |Reached(now, steps).sellers| && v < |Reached(now, steps).sellers|
    requires Reached(now, steps).sellers[u].authUser.Some?
    ensures Reached(now, steps).sellers[u].authUser == Reached(now, steps).sellers[v].authUser ==> u == v
    ensures Reached(now, steps).sellers[u].authUser.value !in Reached(now, steps).accounts
  {
    RunKeepsInv(now, steps);
  }

  /**
   A live claim up to fifteen minutes old excludes everybody else: whatever step anyone but its holder
   takes, the token row keeps its hash, its claim and its expiry.
   */
  lemma LiveClaimExcludesEverybody(now: int, steps: seq<Step>, step: Step, u: nat, t: int, holder: ClientId)
    requires Mine(Reached(now, steps), holder, u, t) && Reached(now, steps).now <= t + STALE_CLAIM_MS
    requires OfTheWorld(step) || step.c != holder
    ensures Apply(Reached(now, steps), step).sellers[u].token == Reached(now, steps).sellers[u].token
  {
    var s := Reached(now, steps);
    RunKeepsInv(now, steps);
    if !OfTheWorld(step) {
      assert ClientOk(s, step.c, At(s, step.c));
    }
  }

  /** The claim time is as good as the client's identity: a row that matches it is a row this client holds. */
  lemma MatchingTimeMeansHolding(now: int, steps: seq<Step>, c: ClientId)
    requires At(Reached(now, steps), c).Holding? || At(Reached(now, steps), c).Failing?
             || At(Reached(now, steps), c).SignedUp? || At(Reached(now, steps), c).Linking?
    ensures
      var s := Reached(now, steps);
      Matches(s, At(s, c).u, At(s, c).t) <==> Mine(s, c, At(s, c).u, At(s, c).t)
  {
    RunKeepsInv(now, steps);
    assert ClientOk(Reached(now, steps), c, At(Reached(now, steps), c));
  }

  // ---------- The calls ----------

  predicate ByOthers(step: Step, self: ClientId) {
    OfTheWorld(step) || step.c != self
  }

  lemma OthersDoNotMoveMe(s: State, step: Step, self: ClientId)
    requires ByOthers(step, self)
    ensures At(Apply(s, step), self) == At(s, self)
  {
    hide Mapped;
  }

  lemma RunExtends(s: State, steps: seq<Step>, step: Step)
    ensures Run(s, steps + [step]) == Apply(Run(s, steps), step)
  {
    assert (steps + [step])[..|steps|] == steps;
  }

  datatype Activation =
    | InvalidOrExpired | AlreadyUsed | SignUpFailed | LinkFailed | Waiting
    | Activated(authUser: AuthId)

  datatype Rotation = NewLink(hash: Hash) | NotPending | BeingActivated | RotationWaiting

  class Desk {
    const self: ClientId
    const began: int
    var s: State
    var others: seq<seq<Step>>
    ghost var trace: seq<Step>

    ghost predicate Valid()
      reads this
    {
      && s == Reached(began, trace)
      && forall i, k :: 0 <= i < |others| && 0 <= k < |others[i]| ==> ByOthers(others[i][k], self)
    }

    constructor (began: int, history: seq<Step>, self: ClientId, others: seq<seq<Step>>)
      requires forall i, k :: 0 <= i < |others| && 0 <= k < |others[i]| ==> ByOthers(others[i][k], self)
      ensures Valid() && this.began == began && this.self == self && this.trace == history && this.others == others
    {
      this.began, this.s, this.self, this.others := began, Reached(began, history), self, others;
      this.trace := history;
    }

    method Await()
      requires Valid()
      modifies this
      ensures Valid() && old(trace) <= trace && At(s, self) == At(old(s), self)
      ensures old(others) == [] ==> s == old(s) && others == []
    {
      if others != [] {
        var steps := others[0];
        for i := 0 to |steps|
          invariant s == Reached(began, trace) && old(trace) <= trace && At(s, self) == At(old(s), self)
          invariant others == old(others)
        {
          OthersDoNotMoveMe(s, steps[i], self);
          RunExtends(Init(began), trace, steps[i]);
          s, trace := Apply(s, steps[i]), trace + [steps[i]];
        }
        others := others[1..];
      }
    }

    /** One statement, after whatever the others did first; `mid` is the state it ran in. */
    method Statement(step: Step) returns (mid: State)
      requires Valid()
      modifies this
      ensures Valid() && old(trace) <= trace && s == Apply(mid, step) && At(mid, self) == At(old(s), self)
      ensures old(others) == [] ==> mid == old(s) && others == []
    {
      Await();
      mid := s;
      RunExtends(Init(began), trace, step);
      s, trace := Apply(s, step), trace + [step];
    }

    /**
     Redeem an invitation. If it answers Activated, the user is linked to the identity this very call
     signed up and the token is consumed. Undisturbed, it activates exactly when the token is claimable,
     the provider signs up, the user was not linked before, and the identity is linked to nobody.
     */
    method ActivateSellerInvitation(u: nat, hash: Hash, identity: Option<AuthId>) returns (outcome: Activation)
      requires Valid() && At(s, self) == Idle
      modifies this
      ensures Valid() && old(trace) <= trace && At(s, self) == Idle
      ensures outcome.Activated? ==>
                && identity == Some(outcome.authUser)
                && u < |s.sellers| && s.sellers[u].authUser == identity
                && s.sellers[u].token.Some? && s.sellers[u].token.value.consumedAt.Some?
      ensures old(others) == [] && LocksFree(old(s), u, identity) ==>
                (outcome.Activated? <==>
                 && u < |old(s).sellers| && old(s).sellers[u].token.Some?
                 && SellerInvitation.Claimable(old(s).sellers[u].token.value, hash, old(s).now)
                 && identity.Some?
                 && old(s).sellers[u].authUser.None? && !Mapped(old(s).sellers, old(s).accounts, identity.value))
    {
      hide Run;
      var mid := Statement(SFind(self, u, hash));
      if At(s, self).Idle? {
        return InvalidOrExpired;
      }
      var refused := TakeClaim(u, hash);
      if refused.Some? {
        return refused.value;
      }
      if old(others) == [] && identity.Some? {
        LinksDecideMapping(old(s), s, identity.value);
      }
      outcome := LinkIdentity(u, identity);
    }

    /** Reads the clock, then claims the token at that time. */
    method TakeClaim(u: nat, hash: Hash) returns (refused: Option<Activation>)
      requires Valid() && At(s, self) == Found(u, hash)
      modifies this
      ensures Valid() && old(trace) <= trace
      ensures if refused.None? then At(s, self).Holding? && At(s, self).u == u
              else At(s, self) == Idle && !refused.value.Activated?
      ensures old(others) == [] ==>
                && others == [] && SameLinks(old(s), s)
                && (refused.None? ==> forall identity :: LocksFree(old(s), u, identity) ==> LocksFree(s, u, identity))
      ensures old(others) == [] && u < |old(s).sellers| && old(s).sellers[u].token.Some? && u !in old(s).tokenLock
              && SellerInvitation.Claimable(old(s).sellers[u].token.value, hash, old(s).now) ==>
                refused.None? && Matches(s, u, At(s, self).t)
    {
      hide Run, Mapped;
      var mid := Statement(SStamp(self));
      refused := ClaimNow(u, hash, At(s, self).t);
    }

    /** The conditional update that claims the token at the time read before. */
    method ClaimNow(u: nat, hash: Hash, t: int) returns (refused: Option<Activation>)
      requires Valid() && At(s, self) == Stamped(u, hash, t)
      modifies this
      ensures Valid() && old(trace) <= trace
      ensures if refused.None? then At(s, self) == Holding(u, t) else At(s, self) == Idle && !refused.value.Activated?
      ensures old(others) == [] ==>
                && others == [] && SameLinks(old(s), s)
                && (refused.None? ==> forall identity :: LocksFree(old(s), u, identity) ==> LocksFree(s, u, identity))
      ensures old(others) == [] && u < |old(s).sellers| && old(s).sellers[u].token.Some? && u !in old(s).tokenLock
              && SellerInvitation.Claimable(old(s).sellers[u].token.value, hash, t) ==>
                refused.None? && Matches(s, u, t)
    {
      hide Run, Mapped;
      var mid := Statement(SClaim(self));
      if At(s, self).Idle? {
        return Some(AlreadyUsed);
      } else if At(s, self).Stamped? {
        mid := Statement(SCrash(self));
        return Some(Waiting);
      }
      refused := None;
    }

    /** From the claim on: the external sign-up, then release, or link and consume together. */
    method LinkIdentity(u: nat, identity: Option<AuthId>) returns (outcome: Activation)
      requires Valid() && At(s, self).Holding? && At(s, self).u == u
      modifies this
      ensures Valid() && old(trace) <= trace && At(s, self) == Idle
      ensures outcome.Activated? ==>
                && identity == Some(outcome.authUser)
                && u < |s.sellers| && s.sellers[u].authUser == identity
                && s.sellers[u].token.Some? && s.sellers[u].token.value.consumedAt.Some?
      ensures old(others) == [] && Matches(old(s), u, At(old(s), self).t) && LocksFree(old(s), u, identity) ==>
                (outcome.Activated? <==>
                  && identity.Some? && old(s).sellers[u].authUser.None?
                  && !Mapped(old(s).sellers, old(s).accounts, identity.value))
    {
      hide Run;
      var mid := Statement(SSignUp(self, identity));
      if identity.None? {
        outcome := ReleaseClaim();
        return;
      }
      var written := WriteLink(u, identity.value);
      outcome := EndLink(u, identity.value, written);
    }

    method ReleaseClaim() returns (outcome: Activation)
      requires Valid()
      modifies this
      ensures Valid() && old(trace) <= trace && At(s, self) == Idle && outcome == SignUpFailed
    {
      hide Run;
      var mid := Statement(SRelease(self));
      mid := Statement(SCrash(self));
      outcome := SignUpFailed;
    }

    /** Commits if both updates matched their row, and otherwise rolls both back. */
    method EndLink(u: nat, auth: AuthId, written: bool) returns (outcome: Activation)
      requires Valid() && (written ==> At(s, self).Consuming? && At(s, self).u == u && At(s, self).auth == auth)
      modifies this
      ensures Valid() && old(trace) <= trace && At(s, self) == Idle
      ensures outcome.Activated? ==>
                && written && outcome.authUser == auth
                && u < |s.sellers| && s.sellers[u].authUser == Some(auth)
                && s.sellers[u].token.Some? && s.sellers[u].token.value.consumedAt.Some?
      ensures old(others) == [] && u < |old(s).sellers| && old(s).sellers[u].token.Some? ==>
                (outcome.Activated? <==> written)
    {
      hide Run;
      if !written {
        var gone := Statement(SCrash(self));
        return LinkFailed;
      }
      var mid := Statement(SCommitLink(self));
      return if u < |mid.sellers| && mid.sellers[u].token.Some? then Activated(auth) else LinkFailed;
    }

    /** The two conditional updates of the linking transaction: the user row, then the token row. */
    method WriteLink(u: nat, auth: AuthId) returns (written: bool)
      requires Valid() && At(s, self).SignedUp? && At(s, self).u == u && At(s, self).auth == auth
      modifies this
      ensures Valid() && old(trace) <= trace
      ensures written ==> At(s, self) == Consuming(u, At(old(s), self).t, auth)
      ensures old(others) == [] ==> others == [] && s.sellers == old(s).sellers
      ensures old(others) == [] && Matches(old(s), u, At(old(s), self).t) && LocksFree(old(s), u, Some(auth)) ==>
                (written <==> old(s).sellers[u].authUser.None? && !Mapped(old(s).sellers, old(s).accounts, auth))
    {
      hide Run;
      var mid := Statement(SLinkUser(self));
      if !At(s, self).Linking? {
        return false;
      }
      mid := Statement(SConsume(self));
      written := At(s, self).Consuming?;
    }

    /**
     Rotate a pending invitation. A new link means the row now carries the new hash, unclaimed. Undisturbed it is
     issued exactly for an unlinked seller whose row is missing or may be rotated, and refused exactly for a claim
     that is live and at most fifteen minutes old.
     */
    method ResendAdminSellerInvitation(u: nat, hash: Hash) returns (outcome: Rotation)
      requires Valid() && At(s, self) == Idle
      modifies this
      ensures Valid() && old(trace) <= trace && At(s, self) == Idle
      ensures outcome.NewLink? ==> Carries(s, u, hash) && outcome.hash == hash
      ensures old(others) == [] ==> (outcome.NotPending? <==> !Pending(old(s), u))
      ensures old(others) == [] ==> (outcome.BeingActivated? <==> Pending(old(s), u) && !MayRotate(old(s), u))
      ensures old(others) == [] ==>
                (outcome.NewLink? <==>
                 && Pending(old(s), u) && MayRotate(old(s), u) && hash !in old(s).used
                 && (old(s).sellers[u].token.Some? ==> Free(old(s).tokenLock, u, self)))
      ensures old(others) == [] ==>
                s.sellers == if outcome.NewLink? && u < |old(s).sellers|
                  then Install(old(s), u, hash, old(s).now).sellers
                             else old(s).sellers
    {
      hide Run;
      var mid := Statement(SStartRotation(self, u));
      if At(s, self).Idle? {
        return NotPending;
      }
      outcome := RotateOrCreate(u, hash);
    }

    method RotateOrCreate(u: nat, hash: Hash) returns (outcome: Rotation)
      requires Valid() && At(s, self).Rotating? && At(s, self).u == u
      modifies this
      ensures Valid() && old(trace) <= trace && At(s, self) == Idle && !outcome.NotPending?
      ensures outcome.NewLink? ==> Carries(s, u, hash) && outcome.hash == hash
      ensures old(others) == [] && u < |old(s).sellers| && At(old(s), self).readAt == old(s).now ==>
                && (outcome.BeingActivated? <==> !MayRotate(old(s), u))
                && (outcome.NewLink? <==>
                    && MayRotate(old(s), u) && hash !in old(s).used
                    && (old(s).sellers[u].token.Some? ==> Free(old(s).tokenLock, u, self)))
                && s.sellers == if outcome.NewLink? then Install(old(s), u, hash, old(s).now).sellers
                   else old(s).sellers
    {
      hide Run;
      var mid := Statement(SRotate(self, hash));
      if At(s, self).Idle? {
        return NewLink(hash);
      } else if At(s, self).Rotating? {
        mid := Statement(SCrash(self));
        return RotationWaiting;
      }
      outcome := CreateIfMissing(u, hash);
    }

    method CreateIfMissing(u: nat, hash: Hash) returns (outcome: Rotation)
      requires Valid() && At(s, self).Missed? && At(s, self).u == u
      modifies this
      ensures Valid() && old(trace) <= trace && At(s, self) == Idle && !outcome.NotPending?
      ensures outcome.NewLink? ==> Carries(s, u, hash) && outcome.hash == hash
      ensures old(others) == [] && u < |old(s).sellers| ==>
                && (outcome.BeingActivated? <==> old(s).sellers[u].token.Some?)
                && (outcome.NewLink? <==> old(s).sellers[u].token.None? && hash !in old(s).used)
                && s.sellers == if outcome.NewLink? then Install(old(s), u, hash, At(old(s), self).readAt).sellers
                                else old(s).sellers
    {
      hide Run;
      var mid := Statement(SCreateMissing(self, hash));
      if At(s, self).Missed? {
        mid := Statement(SCrash(self));
        return RotationWaiting;
      }
      return if u < |mid.sellers| && mid.sellers[u].token.None? then NewLink(hash) else BeingActivated;
    }
  }

  /** Nobody is writing the user's row, the token row, or a link to this identity. */
  predicate LocksFree(s: State, u: nat, identity: Option<AuthId>) {
    u !in s.userLock && u !in s.tokenLock && (identity.Some? ==> identity.value !in s.identityLock)
  }

  /** The same users are there, linked to the same identities. */
  predicate SameLinks(a: State, b: State) {
    && b.accounts == a.accounts && |a.sellers| == |b.sellers|
    && forall u :: 0 <= u < |a.sellers| ==> a.sellers[u].authUser == b.sellers[u].authUser
  }

  lemma LinksDecideMapping(a: State, b: State, auth: AuthId)
    requires SameLinks(a, b)
    ensures Mapped(a.sellers, a.accounts, auth) <==> Mapped(b.sellers, b.accounts, auth)
  {
  }

  /** The seller's row carries an open invitation with this hash. */
  predicate Carries(s: State, u: nat, hash: Hash) {
    && u < |s.sellers| && s.sellers[u].token.Some?
    && s.sellers[u].token.value.hash == hash
    && s.sellers[u].token.value.claimedAt.None? && s.sellers[u].token.value.consumedAt.None?
  }

  predicate Pending(s: State, u: nat) {
    u < |s.sellers| && s.sellers[u].authUser.None?
  }

  /** There is no row, or one that is unclaimed, consumed, or claimed more than fifteen minutes ago. */
  predicate MayRotate(s: State, u: nat)
    requires u < |s.sellers|
  {
    s.sellers[u].token.Some? ==> Rotatable(s.sellers[u].token.value, s.now)
  }
}
