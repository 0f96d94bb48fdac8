# A verified model of the SaaS backend

The project models the stateful part of the backend: organizations with their memberships and invitations, billing,
and accounts with their tokens and second factors. It proves properties of whole runs of requests.

## How the model is built

- **Store.** `schema.dfy` has the rows of the relational store as datatypes, keyed by id. A membership is keyed by its
  unique pair (user, organization), a subscription by its organization. Redis is a map from tokens to the instant their
  entry ends. Signing is ideal: the decoder accepts exactly the tokens in a set of issued ones. Password and token hashes
  are ideal as well.
- **Requests.** Every request is one atomic step, as the session boundary makes it: committed when the handler returns,
  rolled back when it raises (`Settle`). Fresh ids and tokens, the current instant, the answers of third parties, and
  whether a mail went out are inputs of the step. A unique-key or foreign-key violation at flush is a failing request
  (`Integrity`), and a one-or-none query that meets two rows is another (`MultipleRows`).
- **Rules and services.** `accounts.dfy`, `tokens.dfy`, `organizations.dfy`, `billing.dfy` and `sessions.dfy` say what
  each operation does as functions. The classes in `organization_service.dfy`, `billing_service.dfy`, `auth_service.dfy`
  and `session.dfy` do it step by step, in the order of the Python code, and are proved to do exactly that, failures
  included. The loop of the slug allocator is there too.
- **Runs.** `system.dfy` puts all requests together as one state machine. `api.dfy` has the application object:
  its committed state is always that of the run of the requests it has served, so every theorem about runs is one about
  the imperative code. Each service method's contract equates it to the function of the same operation; the table below
  lists the loop, the two methods with a twist of their own, and the handlers that put them together.
- **Theorems.** The invariant of every committed state is in `integrity.dfy` and `reachable.dfy`. `account_guards.dfy`,
  `account_history.dfy`, `replies.dfy`, `organization_history.dfy` and `billing_history.dfy` say of each request when it
  succeeds and what it writes, in terms of the rows alone, and prove that the operations do so; histories are read off
  these guards. The remaining files prove the properties of runs listed below.

## What is proved, in short

- Accepting an invitation never looks for an existing membership, and never needs to: in every reachable store it
  succeeds exactly for the addressee of a live invitation, and cannot collide with the unique key.
- An organization has its founder, plus its accepted invitations, minus its effective removals, at every point of every
  run. Every membership has lasted since the step that brought it about: founding, or accepting within seven days a
  pending invitation that someone ranked ADMIN or above had sent. Authority is never conjured, and an organization that
  has lost it never regains it.
- Who becomes an owner, who ceases to be one, and when the last owner is gone is characterized request by request.
- One organization's members and invitations do not depend on requests addressed to others.
- A checkout reported over three channels, in any order and any number of times, leads to the same plan and one active
  subscription. For an organization that does not have both already this holds if and only if the plan's code is
  configured and no other organization holds the checkout's customer or subscription code.
- Every role, name, logo and invitation is the one the requests of the run last gave, and every organization request
  succeeds exactly under its guards.
- Plans, customer codes and every field of a subscription are those the history of events calls for.
- A third-party login resolves to the one account with the presented address, and stored passwords, reset tokens,
  verification flags, links, activity and second factors are those the history calls for.
- A logged-out refresh token stays out over every later run if and only if the decoder's leeway is no longer than the
  fraction of the second in which the logout happened (section 4.1.4 of RFC 7519 lets an implementer choose a small
  leeway).
- While a second factor is in force, the password alone never leads to an access or refresh token, and nothing but a
  code of its own ends it.

## Where code and documentation differ

The model follows the code.

- `CONTEXT.md:21` says an ADMIN manages all members except owners. An owner is only guarded against a role change by
  somebody who is not an owner at that moment. `Owners.AdministratorsSpareOwnersExactly` says when a single request of a
  non-owner ends an ownership: removal by an ADMIN. `Owners.OwnershipBeginsExactly` says who becomes an owner, which
  includes any ADMIN who asks for it, and `Owners.AdministratorsReplaceOwners` that two role changes then suffice.
  `OwnershipRun` reaches both outcomes from the empty store.
- `CONTEXT.md:20` and `CONTEXT.md:43` describe an owner with sole control. Nothing keeps the last owner in place:
  `Owners.LastOwnerLeavesExactly` says which requests leave an organization without one.
- `app/lib/email.py:44` and `app/lib/email.py:56` promise that verification and reset links expire. No time is stored or
  compared: `LinksRun` has runs in which any time passes and the link then works, and `Credentials.ResetExact` and
  `Verification.VerifyEmailExact` say when such a token works.
- `CONTEXT.md:50` says all organizational operations go through member validation first.
  `Strangers.StrangersChangeExactly` says, from the request and the store before it, which requests change an
  organization although their caller is no member: founding it, joining it, and billing. Verifying a transaction and
  canceling ask for an active account only (`app/api/v1/endpoints/billing.py:36-47`,
  `app/api/v1/endpoints/billing.py:64-74`); `BillingHistory.VerifyGrantedExactly` and `Strangers.CancelGrantedExactly`
  have their guards, and `BillingRuns.StrangerCancels` is a run.
- `README.md:11` of the repository names Stripe; the code talks to Paystack.
- `app/services/org_service.py:211-214` marks an overdue invitation EXPIRED and then raises, so the mark is rolled back:
  no committed invitation is EXPIRED (part of the invariant in `Reachable.ReachableStoreOk`).

Two more things one might expect do not hold:

- Refresh tokens are not single-use, since `app/services/auth_service.py:103-115` does not revoke its input.
  `RefreshHistory.RefreshExact` says when an exchange succeeds, and `RefreshHistory.RefreshTokenUsedTwice` is a run.
- An ACTIVE subscription may carry a cancellation time. `BillingHistory.ActiveAfterCancellationExactly` says when, and
  `BillingRuns.RenewedSubscriptionStaysMarked` is a run.

## Model

| member | source | states |
|---|---|---|
| Text.NormalizeIsProjection | app/repositories/user_repo.py:25-29 | Normalizing an address is idempotent, its fixed points are the lower-case addresses without outer blanks, and lower-casing a stored address again changes nothing, so all lookups by address agree. |
| Text.LowerCharMeaning | app/repositories/user_repo.py:25-29 | The letters A to Z go to a to z in place, and every other character stays. |
| Text.NormalizeMeaning | app/repositories/user_repo.py:25-29 | A normalized address is the lower-cased text between its first and last character that are not blank. |
| Text.DecimalInjective | app/services/org_service.py:258 | Different counters print differently. |
| Text.DecimalMeaning | app/services/org_service.py:258 | What is printed consists of digits whose value, read from the left, is the counter. |
| Slugs.CandidateInjective | app/services/org_service.py:254-260 | The slugs tried for one base never repeat. |
| Slugs.CandidateMeaning | app/services/org_service.py:254-260 | The first candidate is the base; every later one is the base, a hyphen, and digits that read as its counter. |
| Slugs.TakenCandidates | app/services/org_service.py:254-260 | Pigeonhole: if the first n candidates are taken, at least n slugs are in use. |
| Slugs.FirstFreeIndex | app/services/org_service.py:254-260 | The search ends at a free candidate with all earlier ones taken, after no more steps than there are slugs in use. |
| Slugs.FirstFreeIsLeast | app/services/org_service.py:254-260 | The chosen slug is a given candidate if and only if that one is free and all earlier ones are taken. |
| MembershipPolicy.RolesAreTotallyOrdered | app/services/membership_policy.py:9-16 | Roles form a total order and a permission includes every lower one. |
| MembershipPolicy.PermissionsExactly | app/services/membership_policy.py:9-20 | Which memberships give each permission, role by role. |
| OrganizationServices.SlugCount | app/models/organization.py:27 | There are at most as many slugs in use as organizations. |
| OrganizationServices.OrganizationService.UniqueSlug | app/services/org_service.py:254-260 | The loop returns the first free slug of base, base-1, base-2, ... within one lookup more than there are organizations. |
| OrganizationServices.OrganizationService.AcceptInvitation | app/services/org_service.py:204-232 | Every branch of acceptance, with the EXPIRED write left in the session of a request that then fails. |
| DatabaseSession.Session.Close | app/db/session.py:24-33 | After a request the committed store is the handler's on return and the earlier one on any exception. |
| Integrity.InviteGuards | app/services/org_service.py:147-163 | In a consistent store the two lookups really exclude every pending invitation and every member with the address. |
| Integrity.InviteKeepsOrgs | app/services/org_service.py:142-179 | Inviting keeps all invariants of organizations, memberships and invitations. |
| Integrity.AcceptKeepsOrgs | app/services/org_service.py:204-232 | Accepting keeps them: the accepted invitation was the only pending one of the new member's address. |
| Integrity.NewUsersKeepOrgs | app/services/auth_service.py:62-71 | A new account cannot break the invariant on pending invitations, since memberships name existing accounts and addresses never change. |
| Integrity.OrgRequestKeepsOrgs | app/services/org_service.py:35-232 | Every organization request keeps: distinct slugs, existing references, distinct tokens, no EXPIRED row, one pending invitation per address and organization, and none while the address belongs to a member. |
| Integrity.OAuthKeepsUsers | app/services/auth_service.py:188-212 | Third-party logins keep each identity on at most one account although the schema does not demand it. |
| Integrity.AccountKeepsUsers | app/services/auth_service.py:56-215 | Every account request keeps addresses distinct and normal, identities distinct, MFA backed by a secret, and never drops an account or changes its address. |
| Reachable.BillingRequestFrame | app/services/billing_service.py:97-331 | Billing writes plans, customer codes and subscriptions, and nothing else of any row. |
| Reachable.OrgRequestFrame | app/services/org_service.py:35-232 | Organization requests leave accounts, subscriptions, plans, customer codes and existing slugs alone. |
| Reachable.OnlyCreateAddsOrgs | app/services/org_service.py:35-58 | An organization appears only by creation. |
| Reachable.UpsertKeepsSubs | app/services/billing_service.py:294-331 | An upsert keeps one row per organization with distinct codes, whatever row was there. |
| Reachable.BillingKeepsSubs | app/services/billing_service.py:97-331 | Codes of subscriptions and customers stay distinct, TRIALING and INCOMPLETE are never reached, and CANCELED implies a cancellation time. |
| Reachable.NextKeepsStore | app/db/session.py:24-33 | Every request of every kind, succeeding or failing, keeps the whole invariant. |
| Reachable.RunKeepsStore | app/db/session.py:24-33 | So does every run. |
| Reachable.ReachableStoreOk | app/repositories/user_repo.py:31-38 | Every state reached from the empty store satisfies the invariant; in particular a lookup by identity never meets two rows. |
| Invitations.AcceptSucceedsExactly | app/services/org_service.py:204-232 | In a reachable store accepting succeeds if and only if the user is the addressee of a live invitation with this token; it never meets the unique key, and the final lookup of the organization never comes back empty. |
| Invitations.AcceptWrites | app/services/org_service.py:218-228 | An accepted invitation writes one membership with the invited role and its own status, and nothing else. |
| Invitations.InviteThenAccept | app/services/org_service.py:142-232 | Round trip: after an invitation goes out a user can join with its token if and only if the account has the invited address and comes within seven days, and joins with exactly the invited role. |
| Invitations.AcceptStep | app/services/org_service.py:204-232 | An acceptance request either makes exactly that change or none. |
| Invitations.InvitationTransition | app/services/org_service.py:181-232 | Over committed states an invitation changes only out of PENDING, to ACCEPTED by its addressee in time or to REVOKED by an administrator. |
| Invitations.MembershipOrigin | app/services/org_service.py:47-55 | A membership appears only by founding, as owner, or by acceptance, with the invited role. |
| Invitations.SettledForever | app/services/org_service.py:189-192 | Once out of PENDING an invitation never changes again in any run. |
| Invitations.AcceptedAtMostOnce | app/services/org_service.py:209-210 | After an acceptance no later request of any run accepts the same invitation. |
| OrganizationHistory.InviteGrantedExactly | app/services/org_service.py:142-179 | In a consistent store an invitation goes out if and only if someone active and ranked ADMIN or above sends it, no invitation to the address is pending in the organization, no member has the address, and id and token are new; whether anybody is registered with the address plays no part. |
| OrganizationHistory.GrantedExactly | app/services/org_service.py:35-232 | Every organization request succeeds if and only if its guards on caller, ranks, seats, invitations and subscription hold. |
| OrganizationHistory.RefusedExactly | app/services/org_service.py:236-252 | Why a request fails: which ones are unauthorized, forbidden, aimed at nothing, or in conflict, each exactly; the rest are bad requests and key violations. |
| OrganizationHistory.RequestWrites | app/services/org_service.py:35-232 | The whole store after every organization request, from its guards. |
| OrganizationHistory.WrittenRole | app/services/org_service.py:92-134 | The role of every seat after a request: the one given by a granted role change, founding or acceptance, none after a granted removal or deletion, and otherwise what it was; demotions included. |
| OrganizationHistory.MembershipsMatchHistory | app/services/org_service.py:92-134 | After any run every seat has the role that the requests of the run last gave it, or is empty as they left it. |
| OrganizationHistory.OrganizationsMatchHistory | app/services/org_service.py:35-75 | After any run an organization exists, with its name and logo, as the creations, updates and deletions of the run say. |
| OrganizationHistory.InvitationsMatchHistory | app/services/org_service.py:142-232 | After any run every invitation has the terms it was sent with, ending 604800 seconds later, and the status its acceptance or revocation gave it. |
| Conservation.MembersAreConserved | app/services/org_service.py:116-128 | At every point of every run, members = 1 + accepted invitations - effective removals, for every organization that exists. |
| Conservation.AcceptBalances | app/services/org_service.py:218-228 | An acceptance adds one member and one accepted invitation to the same organization, or nothing. |
| Conservation.RequestBalances | app/services/org_service.py:92-232 | No organization request upsets the balance except by an effective removal, which is counted. |
| Authority.LeaderlessForever | app/services/org_service.py:92-232 | Without a member or pending invitation ranked ADMIN or above, an organization never has one again in any run, nor is it ever deleted. |
| Authority.NewInvitation | app/services/org_service.py:166-176 | An invitation appears only by a request of someone ranked ADMIN or above, with the address, role, token and expiry of that request. |
| Authority.EveryInvitationWasSent | app/services/org_service.py:142-179 | Every stored invitation was put there, pending, by an earlier request of someone ranked ADMIN or above at that moment, has been stored since, and still has its terms. |
| Authority.EveryMembershipIsTraced | app/services/org_service.py:204-232 | Every membership was absent before some earlier step and has lasted since; that step founded the organization, or met a pending invitation with its token, in time, at the address of the member's account, sent by an administrator. |
| Authority.RiseStep | app/services/membership_policy.py:13-16 | In one step a user comes to rank ADMIN or above only by founding, by a role change that someone so ranked makes, or by accepting such an invitation. |
| Authority.AuthorityIsGranted | app/services/org_service.py:92-114 | Whoever ranks ADMIN or above did not before some earlier step and has since; that step founded the organization, changed the role at the hand of someone then so ranked, or accepted such a person's invitation. |
| Owners.OwnershipBeginsExactly | app/services/org_service.py:92-114 | Somebody becomes an owner by exactly these requests: founding under an unused id as a verified user, being given the role by anyone ranked ADMIN or above, oneself included, or accepting an invitation as OWNER. |
| Owners.OwnershipEndsExactly | app/services/org_service.py:92-134 | An owner stops being one by exactly these requests: a role change by somebody who is an owner then, a removal by themselves or anyone ranked ADMIN or above, deletion by an owner. |
| Owners.AdministratorsReplaceOwners | app/services/org_service.py:108-112 | In any store two role changes give any administrator the place of any owner. |
| Owners.AdministratorsSpareOwnersExactly | app/services/org_service.py:116-128 | A single request of somebody who is no owner ends another's ownership if and only if it is a removal by an ADMIN. |
| OwnershipRun.AdministratorRemovesOwner | app/services/org_service.py:119-128 | From the empty store, for any two people: both register and confirm, one founds and invites the other as ADMIN, who joins, removes the founder and leaves the organization without an owner. |
| OwnershipRun.AdministratorReplacesOwner | app/services/org_service.py:108-112 | The same beginning, then two role changes and no removal: the administrator is the owner and the founder is not. |
| OwnershipRun.InstanceFails | app/services/org_service.py:92-134 | Both outcomes for one pair of people written out. |
| Owners.LastOwnerLeavesExactly | app/services/org_service.py:109-128 | An existing organization is left without an owner by exactly the requests that end the ownership of its only one. |
| Tenancy.SameInviteGuards | app/services/org_service.py:149-163 | The lookups behind an invitation read only what belongs to the organization, given fresh ids and tokens. |
| Tenancy.ForeignRequest | app/services/org_service.py:92-232 | A request addressed to another organization leaves this one's members and invitations alone. |
| Tenancy.ProjectionSimulates | app/services/org_service.py:92-232 | Step by step the run without other organizations' requests stays in agreement with the full run. |
| Tenancy.TenantsAreIsolated | app/services/org_service.py:92-232 | Replaying only account requests and requests addressed to one organization, but for deletions refused because of a subscription, gives it the same members, roles and invitations. |
| SlugHistory.SlugStep | app/services/org_service.py:60-70 | No request changes the slug of an existing organization. |
| SlugHistory.SlugsNeverChange | app/services/org_service.py:60-70 | Over any run a slug never changes and no other organization gets it while its organization lives. |
| SlugHistory.SlugsAreConsecutive | app/services/org_service.py:35-58 | n organizations founded on one base in a store without any get exactly base, base-1, ..., base-(n-1). |
| BillingHistory.FindByCode | app/services/billing_service.py:264-267 | With distinct codes a lookup by code finds the holder and never two rows. |
| BillingHistory.GrantedExactly | app/services/billing_service.py:97-331 | Every billing request and webhook succeeds if and only if its guards hold: verifying and canceling as below, an event unless it is not genuine, subscribes an unknown organization, brings a code another organization holds, or names a code that several hold. |
| BillingHistory.BillingRefusedExactly | app/services/billing_service.py:97-166 | Why a billing request is refused: no active caller, the provider, a missing row, or a bad request, each exactly; the rest are key violations and ambiguous codes. |
| BillingHistory.NextWrites | app/services/billing_service.py:97-331 | Which plan, customer code, status, terms and cancellation time one step writes for one organization, and that it writes no other. |
| BillingHistory.PlanIsLastWritten | app/services/billing_service.py:216-278 | After any run an organization's plan is the one written by its last successful plan-writing event, and its customer code that of its last verification. |
| BillingHistory.SubscriptionIsLastWritten | app/services/billing_service.py:294-331 | After any run its status is that of the last upsert, cancellation, or disable or failure matching the code then held, its codes and period those of the last upsert, its cancellation time that of the last cancellation. |
| BillingHistory.ActiveAfterCancellationExactly | app/services/billing_service.py:314-319 | After any run a subscription is ACTIVE with a cancellation time if and only if its status was last written ACTIVE and it was canceled at some time before. |
| BillingRuns.RenewedSubscriptionStaysMarked | app/services/billing_service.py:314-319 | From the empty store: a subscription that begins, ends and begins again is ACTIVE and carries the time of its end. |
| Strangers.StrangersFoundOrJoin | app/services/org_service.py:236-252 | An organization request of somebody who is no member changes what is stored about it if and only if it founds the organization or accepts one of its invitations. |
| Strangers.BillingIgnoresMembership | app/api/v1/endpoints/billing.py:64-74 | Verifying and canceling have the same effect for every active caller, member or not. |
| BillingHistory.VerifyGrantedExactly | app/services/billing_service.py:110-138 | Verifying succeeds if and only if the caller is active, the answer has arrived and reports success for an existing organization, and no other organization holds its customer or subscription code; no membership is asked for. |
| Strangers.BillingChangesExactly | app/services/billing_service.py:97-331 | For every billing request and event, the guards on the request and the store before it under which it changes what is stored about an organization: it is allowed, it names the organization or the code it holds, and the plan, customer, terms, status or cancellation time it brings is not there already. |
| Strangers.CancelGrantedExactly | app/services/billing_service.py:145-166 | Canceling succeeds if and only if the caller is active, there is a subscription, and the provider agrees; no role is asked for. |
| Strangers.StrangersChangeExactly | app/api/v1/endpoints/billing.py:36-89 | A request of any kind whose caller is no member changes what is stored about an organization if and only if it founds it, joins it, or is a billing request that meets those guards. |
| BillingRuns.StrangerCancels | app/api/v1/endpoints/billing.py:64-74 | From the empty store: somebody who never joined an organization cancels its subscription. |
| Confluence.PlanCodesInvert | app/services/billing_service.py:31-38 | The two plan-code maps are inverse on paid plans if and only if both codes are set and differ. |
| Confluence.CodePlanExactly | app/services/billing_service.py:31-38 | A code stands for the free plan if and only if it is empty or no paid plan has it, and for the dearer plan if both have it. |
| Confluence.PlanOfKeyExactly | app/services/billing_service.py:216-230 | Each plan is found by its own name and an unknown name means the free one. |
| Confluence.ReportStep | app/services/billing_service.py:97-257 | Each report of a checkout whose codes nobody else holds is granted and puts the organization on the plan paid for, and with the subscription if it carries one. |
| Confluence.CheckoutConverges | app/services/billing_service.py:97-141 | Any run in which the reports of a checkout arrive in any order and number among unrelated traffic ends on the plan, and, once a report carries the subscription, with one active row with its code, which nobody else holds. |
| Confluence.MisconfiguredPlansDiverge | app/services/billing_service.py:36-38 | With an unset or shadowed code two reports in two orders end on two different plans. |
| Confluence.HeldCodesRefuse | app/models/organization.py:37-39 | When another organization holds the customer code or the subscription code, some report that carries the subscription is refused and leaves the store as it was. |
| Confluence.ConvergenceExact | app/services/billing_service.py:97-257 | For an organization that is not both on the plan and subscribed, every run of reports of a paid checkout ends on the plan, and subscribed once a report carries the subscription, if and only if the code is configured and neither the customer code nor the subscription code is held by another organization; if the plan is missing, the plan alone is equivalent to that too. |
| Commutation.RequestIsLocal | app/services/billing_service.py:97-331 | What a billing request writes depends only on the rows it reaches and the codes it names. |
| Commutation.WritesWhereItReaches | app/services/billing_service.py:97-331 | It writes only rows it reaches and introduces no code it does not name. |
| Commutation.RequestsCommute | app/services/billing_service.py:181-331 | Requests on different organizations with different codes leave the same store in either order, failures included. |
| AuthServices.AuthService.RevokeRefreshToken | app/core/security.py:103-126 | Writes an entry for the whole seconds left, if there are any and Redis is up. |
| Tokens.RevocationEnd | app/core/security.py:103-126 | Without leeway the entry written by a logout ends in [exp, exp + 1). |
| Tokens.RevocationExact | app/core/security.py:87-126 | A logged-out token is rejected at every later instant if and only if the decoder's leeway is at most the fraction of the second the logout happened into. |
| Revocation.RequestsKeepEntries | app/core/security.py:103-126 | No request removes an entry of the revocation list, and an entry that outlasts its token is never rewritten. |
| Revocation.LoggedOutForever | app/services/auth_service.py:119-132 | With Redis up, a logged-out refresh token is refused by verification and by refresh after every later run and at every later instant if and only if the leeway is at most the fraction of the second the logout happened into. |
| RefreshHistory.EntriesMatchHistory | app/core/security.py:103-126 | After any run the revocation list holds, for each token, what its last revoking logout wrote. |
| RefreshHistory.RefreshExact | app/services/auth_service.py:103-115 | After any run a token is exchanged if and only if it is a signed refresh token, not expired, not revoked by a logout of the run as far as Redis can be asked, and its account is active. |
| RefreshHistory.ExchangeLeavesTheNextOne | app/services/auth_service.py:103-115 | Whether an exchange succeeds does not depend on an earlier exchange of the same token. |
| RefreshHistory.RefreshTokenUsedTwice | app/services/auth_service.py:103-115 | From the empty store: the refresh token of a registration is exchanged twice. |
| AccountGuards.AddressLookup | app/repositories/user_repo.py:25-29 | In a consistent table the lookup by address finds exactly the account holding the normalized address, nobody if it is free, and never two. |
| AccountGuards.IdentityLookup | app/repositories/user_repo.py:31-38 | So does the lookup by identity for the linked account. |
| AccountGuards.RegisterExactly | app/services/auth_service.py:56-71 | Registration succeeds if and only if id and address are new, for a new account; a held address is a conflict, whoever holds it. |
| AccountGuards.LoginExactly | app/services/auth_service.py:78-85 | A password login lets in exactly the active account with the address and the password, and fails as unauthorized otherwise. |
| AccountGuards.OAuthExactly | app/services/auth_service.py:180-215 | A third-party login resolves to an account if and only if the identity is linked to it, or to none and the account has the address, or neither is known and the account is new. |
| AccountGuards.ChangePasswordExactly | app/api/v1/endpoints/users.py:31-40 | A password is changed if and only if the stored one is given. |
| AccountHistory.RequestProfile | app/services/auth_service.py:56-215 | For every account and request: the address, activity, link and second factor it has afterwards, from guards on the request and the rows before. |
| AccountHistory.LoginReturnsToItsAccount | app/services/auth_service.py:180-215 | After a third-party login the next one with its identity resolves to the same account, under whatever address. |
| AccountHistory.ProfilesMatchHistory | app/services/auth_service.py:56-215 | After any run every account exists, is active, linked and protected exactly as the requests of the run say. |
| Replies.PairExactly | app/services/auth_service.py:56-115 | A token pair for an account is handed out if and only if the request authenticates it or exchanges a good refresh token of it. |
| Replies.PendingExactly | app/services/auth_service.py:87-99 | A pending token is handed out if and only if a login has the right password of an active account with MFA on. |
| Replies.TokensHandedOut | app/core/security.py:32-70 | The subject, kind, issue second and expiry second of all tokens handed out, and that just these are signed. |
| Replies.DoneExactly | app/api/v1/endpoints/mfa.py:27-78 | The requests that hand out nothing succeed if and only if their guards hold, whoever asks and whichever row they touch. |
| Replies.FailuresExactly | app/api/v1/endpoints/admin.py:56-81 | Which failures are conflicts, unauthorized, forbidden, or aimed at no account. |
| Replies.OwnRowFailures | app/api/v1/endpoints/mfa.py:27-78 | Password changes and second factor requests fail as unauthorized or as bad requests in exactly these cases, and in no other way. |
| Replies.MailLinkFailures | app/services/auth_service.py:136-176 | A mail link is a bad request if and only if no account holds its token. |
| Identity.OAuthAddressExact | app/services/auth_service.py:188-212 | A login resolves to an account with the presented address if and only if the identity is not linked to an account with another. |
| Identity.RunLinksByAddress | app/services/auth_service.py:188-212 | If identities always present the same address, every linked account has the address its identity presents. |
| Identity.OneAccountPerAddress | app/services/auth_service.py:180-215 | Then any two logins of a run that present one address, through whichever providers and relinks, resolve to one account. |
| Identity.LoginJoinsExistingAccount | app/services/auth_service.py:192-198 | And an account that has the address already, registered locally or not, is the one resolved to. |
| Identity.AccountsPersist | app/api/v1/endpoints/users.py:42-46 | No run drops an account or changes its address. |
| Credentials.CredentialsMatchHistory | app/services/auth_service.py:152-176 | After any run the stored password is the one most recently registered, reset or changed, and the stored reset token that of the latest committed request not used since. |
| Credentials.LoginAcceptsLastPassword | app/services/auth_service.py:78-85 | Login lets an account in if and only if the address is its own, it is active, and the password is the one most recently written. |
| Credentials.ResetExact | app/services/auth_service.py:165-176 | A reset succeeds for an account if and only if its token is live for it and for no other. |
| Credentials.LiveTokenWasIssued | app/services/auth_service.py:152-163 | A live token was issued at a step of the run, with no reset of that account since. |
| Credentials.ResetMatchesHistory | app/services/auth_service.py:165-176 | With tokens that do not repeat, a reset succeeds if and only if its token came from the latest committed request of some account and is unused. |
| Credentials.ResetTokenUsedOnce | app/services/auth_service.py:171-173 | After a reset its token never works again. |
| LinksRun.ResetLinkNeverExpires | app/services/auth_service.py:165-176 | From the empty store: after a reset request, any time passes, and the link works. |
| Verification.RequestVerifies | app/services/auth_service.py:136-148 | How each request changes the verified flag and the verification token of each account. |
| Verification.VerifiedMeansProved | app/services/auth_service.py:136-215 | After any run an account is verified if and only if a third-party login resolved to it or its own token was presented. |
| Verification.VerifyEmailExact | app/services/auth_service.py:136-148 | A token verifies an account if and only if it is live for it alone and the mail goes out. |
| LinksRun.VerificationLinkNeverExpires | app/services/auth_service.py:136-148 | From the empty store: after a registration, any time passes, and the link works. |
| Verification.FoundersHaveProvedTheirAddress | app/api/deps.py:79-82 | Every organization of every run came into being at an earlier step and has existed since; the founder, then its only member, had proved the address before. |
| Issuance.NewToken | app/services/auth_service.py:219-224 | A new access or refresh token comes from authenticating its subject or from exchanging a refresh token of the same subject. |
| Issuance.EveryTokenGoesBackToAuthentication | app/services/auth_service.py:103-115 | Through any number of refreshes, every access or refresh token is for an account authenticated earlier in the run. |
| Issuance.DeactivatedAccountsExactly | app/services/auth_service.py:180-215 | While an account is deactivated, a request hands out a token pair for it if and only if it is a third-party login that resolves to it. |
| Issuance.DeactivatedTokensComeFromOAuth | app/services/auth_service.py:84-85 | And no other request signs an access or refresh token for it. |
| Deactivation.InactiveCallerChangesNothing | app/api/deps.py:45-50 | A request made as a caller who has no active account leaves store, signed tokens and revocation list as they were. |
| Deactivation.ActivatedExactly | app/api/v1/endpoints/admin.py:70-81 | A deactivated account becomes active by exactly the requests in which an active superuser activates it. |
| Deactivation.OnlyAdministratorsReactivate | app/api/v1/endpoints/admin.py:70-81 | Between a point of a run where an account is deactivated and a later one where it is not, a superuser activated it. |
| Deactivation.DeactivatedRequestsAreNoise | app/api/deps.py:45-50 | Until then, striking all requests the account makes from a run changes nothing of the state the run reaches. |
| MfaHistory.FactorStep | app/api/v1/endpoints/mfa.py:27-78 | A second factor comes into force only by presenting a code of the secret stored then, and is never swapped while in force. |
| MfaHistory.FactorEndsExactly | app/api/v1/endpoints/mfa.py:66-78 | A factor in force ends or changes if and only if its active holder asks to disable it and presents a code of it. |
| MfaHistory.OnlyItsCodeEndsAFactor | app/api/v1/endpoints/mfa.py:66-78 | Between a point of a run where a factor is in force and a later one where it is not, it was disabled with its own code. |
| MfaHistory.EnabledMeansConfirmed | app/api/v1/endpoints/mfa.py:50-63 | In every reachable state MFA on means a stored secret that was confirmed and has been in force ever since. |
| MfaHistory.FactorGuardsTokens | app/services/auth_service.py:87-99 | While a factor is in force for an account, a new access or refresh token for it comes only from the second step with a code of that very factor, a third-party login, or exchanging one of its refresh tokens; the password alone never yields one. |
| MfaHistory.PendingTokensComeFromLogin | app/core/security.py:32-39 | Every pending token goes back to a login with the right password under MFA. |
| MfaHistory.ValidatedPairRests | app/api/v1/endpoints/mfa.py:81-100 | A pair from the second step rests on a right password less than 300 seconds (plus leeway) before and a code of the secret in force, itself confirmed earlier. |
| Api.Application.HandleOrg | app/api/v1/endpoints/organizations.py:23-177 | Serving an organization request, guards and commit or rollback included, is one step of the state machine. |
| Api.Application.HandleBilling | app/api/v1/endpoints/billing.py:36-89 | So is serving a billing request or a webhook. |
| Api.Application.HandleAccount | app/api/v1/endpoints/auth.py:25-102 | So is serving an account request, with the reply the state machine gives. |
| Api.BearerExactly | app/core/security.py:78-84 | A bearer is somebody if and only if the token was signed as an access token for them and has not expired; otherwise the request is unauthorized. |
| Api.OpenRequests | app/api/v1/endpoints/auth.py:25-102 | Only webhooks, registration, login, token exchange, logout, the three mail-link endpoints, third-party login and the second factor step are served without an access token. |
| Api.ActingAsExactly | app/api/deps.py:33-50 | A request is made by the caller put into it whomever it named before, and is otherwise unchanged. |
| Api.Application.Authenticate | app/api/deps.py:33-50 | A caller is the subject of an access token that is signed, of the right kind and not expired, and has been authenticated by an earlier request of the history served. |
| Api.Application.Handle | app/api/deps.py:33-50 | A request that needs a caller is served as one of the token's subject, otherwise unchanged, whomever it names, or refused leaving no trace; the rest is served as it is; the failure reported is that of the request served. |
| Api.Application.CommittedStoreIsConsistent | app/db/session.py:24-33 | After whatever requests, the committed store of the application satisfies the whole invariant. |

## Left out

- Tenancy.TenantsAreIsolated: assumes that an invitation's fresh id and token are in use by no other organization; slugs and billing data are not part of the projection, since slugs are shared by all organizations.
- OrganizationServices.OrganizationService.Delete: an organization with a subscription row makes the request fail; what the ORM does with that non-null foreign key is not modelled.
- OrganizationServices.OrganizationService.Create: `slugify` is not modelled; its result is an input of the request.
- Revocation.LoggedOutForever: Redis is up; with Redis down the code lets a revoked token through on purpose (`app/core/security.py:134-138`), which is part of the model.
- AuthServices.AuthService.RevokeRefreshToken: every signed token has an expiry, so the fallback for a token without one (`app/core/security.py:114-115`) never arises.
- Tokens.RevocationExact: which leeway the JWT library applies is a parameter of the deployment.
- Text.NormalizeIsProjection: case folding and blanks are those of ASCII.
- BillingServices.BillingService.VerifyTransaction: a provider answer lacking the customer block, or with null where text is expected, is not modelled; missing text is the empty string.
- BillingServices.BillingService.UpsertSubscriptionRecord: calendar arithmetic and date parsing are library code; the end of the period is an input.
- Api.Application.HandleOrg: serves a caller given by id, since decoding the bearer token is in `Api.Application.Handle`; the base slug is an input, since `slugify` is not modelled.
- Api.Application.HandleBilling: serves a caller given by id; a provider answer with missing or null blocks is not modelled.
- Api.Application.HandleAccount: whether the caller of an admin request is a superuser is an input, since no request writes that flag (`app/api/v1/endpoints/admin.py:56-81`).
- Rows are values in maps, so ORM identity, lazy loading and aliasing of row objects are not captured; membership and subscription row ids are not modelled.
- Requests are serial: two concurrent transactions are outside the model, and the check before an insert relies on that.
- bcrypt, SHA-256, HMAC-SHA512, HS256 and TOTP codes are ideal or abstract functions.
- HTTP, wiring, rate limits, logging, health, admin statistics and listings, notifications, audit log, pagination and request schemas.
- Profile fields (full name, avatar) and read-only listings of organizations, members and invitations.
- Plan limits: `assert_member_limit` in `app/core/permissions.py` has no caller in these services.
- Starting a checkout and the management link (`app/services/billing_service.py:55-93`, `app/services/billing_service.py:170-177`) only talk to the provider or build a link.
