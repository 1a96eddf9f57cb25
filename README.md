# Navigation guards of the event-management web app

This project models the two navigation guards of a SvelteKit web application
for organising esports events on top of a hosted backend:

- the **layout authorization gate** (`load` in `src/routes/+layout.server.ts`),
  which runs before every page, takes the current session (present or absent)
  and the requested path, and either redirects with 303 See Other or passes the
  session on to the page; and
- the **profile page guard** (`load` in `src/routes/profile/+page.ts`), which
  reads the current user from the session store and redirects with
  307 Temporary Redirect to `/auth` when there is none.

Both are pure decisions and are modelled as total functions. A thrown
`redirect(status, location)` becomes the returned value
`Navigation.Outcome.Redirect(status, location)`; a returned object becomes
`Pass(data)`. The awaited session and the store read become parameters of
type `Option`, with `None` for the source's `null`. `Array.prototype.includes`
on the route lists is `Navigation.Includes`, proved equal to exact sequence
membership, since JavaScript compares strings by exact, case-sensitive
equality. Each guard is paired with an independent statement of its policy
(`LayoutGate.MayView`, `LayoutGate.Destination`) or with lemmas that relate it
to the other guard.

Files: `wrappers.dfy` (the `Option` type), `navigation.dfy` (outcomes and list
membership), `layout_gate.dfy` (the layout gate), `profile_page.dfy` (the
profile guard).

## Model

| member | source | states |
|---|---|---|
| Navigation.Includes | src/routes/+layout.server.ts:21 | `includes` on a string array is true exactly when some element equals the string, i.e. sequence membership by exact equality |
| LayoutGate.IsPublic | src/routes/+layout.server.ts:8 | a path is public exactly when it equals `/`, `/auth/login` or `/auth/register`; no prefix, suffix or case-insensitive matching |
| LayoutGate.IsAuthPage | src/routes/+layout.server.ts:26 | a path is an auth page exactly when it equals `/auth/login` or `/auth/register`, and every auth page is public |
| LayoutGate.Gate | src/routes/+layout.server.ts:4-33 | every redirect has status 303 and targets one of the public routes; a pass hands on exactly the input session |
| LayoutGate.GateMatchesPolicy | src/routes/+layout.server.ts:18-32 | for every session and path the gate passes iff the reference policy allows the view, and otherwise redirects with 303 to `/auth/login` (no session) or `/` (session) |
| LayoutGate.AnonymousProtectedRedirects | src/routes/+layout.server.ts:21-23 | no session and a path outside the public list gives `Redirect(303, "/auth/login")` |
| LayoutGate.AnonymousPublicPasses | src/routes/+layout.server.ts:8-32 | no session and a public path passes with the absent session, no redirect |
| LayoutGate.SignedInAuthPageRedirects | src/routes/+layout.server.ts:26-28 | a session and `/auth/login` or `/auth/register` gives `Redirect(303, "/")` |
| LayoutGate.SignedInOtherPasses | src/routes/+layout.server.ts:26-32 | a session and any other path passes with exactly that session |
| LayoutGate.NearMissesAreProtected | src/routes/+layout.server.ts:8-23 | `/auth/login/`, `/auth`, `/Auth/login` and the empty path are not public: an anonymous request to them is redirected to the login page |
| LayoutGate.ExtensionsAreProtected | src/routes/+layout.server.ts:8-23 | no prefix matching: a public path extended by any suffix that is not itself public is protected |
| LayoutGate.StaffRoutesHaveNoEffect | src/routes/+layout.server.ts:11-28 | for either session state, each declared staff path gets the same outcome as any path that is neither public nor an auth page |
| LayoutGate.StaffRoutesOpenToAnySession | src/routes/+layout.server.ts:11-32 | staff paths pass for every session and redirect anonymous visitors to the login page, so no staff role is enforced |
| LayoutGate.RulesExclusive | src/routes/+layout.server.ts:21-28 | the two redirect rules never apply together, and a redirect goes to the login page exactly when there is no session |
| LayoutGate.NoRedirectLoop | src/routes/+layout.server.ts:8-28 | following a redirect once with the same session always reaches a page the gate passes |
| LayoutGate.RedirectTargetsPass | src/routes/+layout.server.ts:8-32 | `Gate(None, "/auth/login")` and `Gate(Some(s), "/")` both pass |
| LayoutGate.OnlyPresenceMatters | src/routes/+layout.server.ts:21-28 | whether and where a signed-in request is redirected does not depend on which session it carries |
| ProfilePage.Load | src/routes/profile/+page.ts:6-16 | redirects exactly when the user is absent, always with 307 to `/auth`; a pass carries the very user that was read |
| ProfilePage.LoadInjective | src/routes/profile/+page.ts:6-16 | the outcome determines the user value: equal outcomes come from equal inputs |
| ProfilePage.TargetIsNotLoginPage | src/routes/profile/+page.ts:10 | the guard's target `/auth` differs from the layout's login page `/auth/login` |
| ProfilePage.TargetUnderLayoutGate | src/routes/profile/+page.ts:10 | `/auth` is protected by the layout gate: an anonymous visitor sent there is redirected on to `/auth/login`, a signed-in one passes |

## Left out

- Retrieving the session (`await getSession()`) and reading the user store (`get(user)`) are I/O; their results are parameters of the guards.
- Asynchronous evaluation and the exception that `redirect` throws are modelled as a returned `Redirect` value.
- Session and user contents are opaque to both guards; their fields in the model are placeholders that no member inspects.
- The profile guard takes no path or other input, so "the outcome depends only on the user" holds by its signature rather than by a lemma.
- `src/lib/supabase.ts`: every function passes straight through to the backend's query builder or auth API; filtering, ordering and read-after-write happen in the remote database, which is not visible.
- `src/lib/supabase/client.ts`: only constructs a browser client from an external library.
- `src/hooks.server.ts`: per-request client construction, cookie bridging and the session closure are framework and network plumbing; the response-header filter (keep only `content-range`) is a single string comparison outside the guards.
- The checks for missing configuration at module load are configuration I/O.
