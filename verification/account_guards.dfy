/** When account operations succeed, and for whom, in terms of the stored rows alone.
    Histories are told with these conditions and never ask an operation what it did. */
module AccountGuards {
  import opened Schema
  import opened Text
  import opened Accounts
  import opened Integrity

  // ── What the rows say ─────────────────────────────────────────────

  predicate HoldsAddress(users: Users, email: string, u: Id) {
    u in users && users[u].email == Normalize(email)
  }

  predicate AddressFree(users: Users, email: string) {
    forall v :: v in users ==> !HoldsAddress(users, email, v)
  }

  predicate IsLinked(users: Users, provider: Provider, providerId: string, u: Id) {
    u in users && users[u].provider == provider && users[u].providerId == Some(providerId)
  }

  predicate Unlinked(users: Users, provider: Provider, providerId: string) {
    forall v :: v in users ==> !IsLinked(users, provider, providerId, v)
  }

  predicate HoldsReset(users: Users, rawToken: string, u: Id) {
    u in users && users[u].resetToken == Some(TokenHash(rawToken))
  }

  ghost predicate OnlyHoldsReset(users: Users, rawToken: string, u: Id) {
    forall v :: HoldsReset(users, rawToken, v) <==> v == u
  }

  predicate HoldsVerification(users: Users, rawToken: string, u: Id) {
    u in users && users[u].verificationToken == Some(TokenHash(rawToken))
  }

  ghost predicate OnlyHoldsVerification(users: Users, rawToken: string, u: Id) {
    forall v :: HoldsVerification(users, rawToken, v) <==> v == u
  }

  predicate HasPassword(users: Users, u: Id, plain: string) {
    u in users && users[u].password == Some(PasswordHash(plain))
  }

  predicate IsActive(users: Users, u: Id) {
    u in users && users[u].isActive
  }

  // ── When operations succeed ───────────────────────────────────────

  /** A registration makes this account: the id and the address are both new. */
  predicate Registers(users: Users, email: string, user: Id, u: Id) {
    u == user && user !in users && AddressFree(users, email)
  }

  /** A third-party login makes this account: the identity is not linked either. */
  predicate Enrols(users: Users, provider: Provider, providerId: string, email: string, user: Id, u: Id) {
    Unlinked(users, provider, providerId) && Registers(users, email, user, u)
  }

  /** A third-party login links its identity to this account, which has the address. */
  predicate Links(users: Users, provider: Provider, providerId: string, email: string, u: Id) {
    Unlinked(users, provider, providerId) && HoldsAddress(users, email, u)
  }

  /** A third-party login is for this account. */
  predicate Resolves(users: Users, provider: Provider, providerId: string, email: string, user: Id, u: Id) {
    || IsLinked(users, provider, providerId, u)
    || Links(users, provider, providerId, email, u)
    || Enrols(users, provider, providerId, email, user, u)
  }

  /** A right address and password of an active account. */
  predicate LogsIn(users: Users, email: string, password: string, u: Id) {
    HoldsAddress(users, email, u) && HasPassword(users, u, password) && users[u].isActive
  }

  // ── They succeed exactly then ─────────────────────────────────────

  lemma AddressLookup(users: Users, email: string, u: Id)
    requires EmailsUnique(users)
    ensures OneOrNone(WithEmail(users, email)) == OneRow(u) <==> HoldsAddress(users, email, u)
    ensures OneOrNone(WithEmail(users, email)) == NoRow <==> AddressFree(users, email)
    ensures !OneOrNone(WithEmail(users, email)).ManyRows?
  {
    var found := WithEmail(users, email);
    assert forall v :: v in found <==> HoldsAddress(users, email, v);
  }

  lemma IdentityLookup(users: Users, provider: Provider, providerId: string, u: Id)
    requires IdentitiesUnique(users)
    ensures OneOrNone(WithOAuth(users, provider, providerId)) == OneRow(u) <==> IsLinked(users, provider, providerId, u)
    ensures OneOrNone(WithOAuth(users, provider, providerId)) == NoRow <==> Unlinked(users, provider, providerId)
    ensures !OneOrNone(WithOAuth(users, provider, providerId)).ManyRows?
  {
    var found := WithOAuth(users, provider, providerId);
    assert forall v :: v in found <==> IsLinked(users, provider, providerId, v);
  }

  /** Registration succeeds exactly for a new id and a free address, for that id; a held
      address is a conflict. */
  lemma RegisterExactly(users: Users, email: string, password: string, user: Id, rawToken: string, u: Id)
    requires UsersOk(users)
    ensures var outcome := Register(users, email, password, user, rawToken).outcome;
            && (outcome == Ok(u) <==> Registers(users, email, user, u))
            && (outcome == Err(Conflict) <==> !AddressFree(users, email))
  {
    var found := OneOrNone(WithEmail(users, email));
    AddressLookup(users, email, if found.OneRow? then found.id else u);
  }

  lemma LoginExactly(users: Users, email: string, password: string, u: Id)
    requires UsersOk(users)
    ensures Login(users, email, password) == Ok(u) <==> LogsIn(users, email, password, u)
    ensures Login(users, email, password).Err? ==> Login(users, email, password) == Err(Unauthorized)
  {
    var found := OneOrNone(WithEmail(users, email));
    AddressLookup(users, email, if found.OneRow? then found.id else u);
    AddressLookup(users, email, u);
  }

  lemma OAuthExactly(users: Users, provider: Provider, providerId: string, email: string, user: Id, u: Id)
    requires UsersOk(users)
    ensures OAuthLogin(users, provider, providerId, email, user).outcome == Ok(u) <==>
            Resolves(users, provider, providerId, email, user, u)
  {
    var linked, holder := OneOrNone(WithOAuth(users, provider, providerId)), OneOrNone(WithEmail(users, email));
    IdentityLookup(users, provider, providerId, if linked.OneRow? then linked.id else u);
    IdentityLookup(users, provider, providerId, u);
    AddressLookup(users, email, if holder.OneRow? then holder.id else u);
    AddressLookup(users, email, u);
  }

  lemma ResetExactly(users: Users, rawToken: string, newPassword: string, u: Id)
    ensures ResetPassword(users, rawToken, newPassword).outcome == Ok(u) <==> OnlyHoldsReset(users, rawToken, u)
  {
    var found := WithResetToken(users, TokenHash(rawToken));
    assert forall v :: v in found <==> HoldsReset(users, rawToken, v);
    assert (forall v :: v in found <==> v == u) <==> found == {u};
  }

  lemma VerifyEmailExactly(users: Users, rawToken: string, mailSent: bool, u: Id)
    ensures VerifyEmail(users, rawToken, mailSent).outcome == Ok(u) <==>
            mailSent && OnlyHoldsVerification(users, rawToken, u)
  {
    var found := WithVerificationToken(users, TokenHash(rawToken));
    assert forall v :: v in found <==> HoldsVerification(users, rawToken, v);
    assert (forall v :: v in found <==> v == u) <==> found == {u};
  }

  /** The one asking must know the password stored. */
  lemma ChangePasswordExactly(users: Users, user: Id, current: string, newPassword: string)
    requires user in users
    ensures ChangePassword(users, user, current, newPassword).outcome.Ok? <==> HasPassword(users, user, current)
  {
  }
}
