# Intranet dashboard: items store, password tiers, session and route guard

This project models the decision and state logic of a small intranet dashboard
and proves properties about it. The dashboard keeps a list of links in one JSON
document in a blob store and guards its pages with a shared-password scheme that
has two tiers.

- `ItemsRoute` (`items_route.dfy`) models the items API. The document `items.json`
  is the field `document: Option<seq<Item>>` of the class `ItemStore`. `None`
  means the blob has never been written. `GetItems` is the fail-open read.
  `SaveItems` is one wholesale write. `Get`, `Post` and `Delete` are the three
  handlers. Whether the blob client throws on reading or on writing is a boolean
  parameter, and the creation timestamp is the parameter `now`. The item id is
  the decimal string of `now`. `Without` is the `filter` that `DELETE` applies.
  Its lemmas show that the kept items keep their order. `WikiScenario` states one
  client scenario as assertions: create on an empty store, list, delete, list again.
- `AuthRoute` (`auth_route.dfy`) models the login endpoint as the function
  `Authenticate` over the password field and the two environment secrets. The
  checks run in the source's order: password present, both secrets configured,
  admin secret, then user secret.
- `AuthSession` (`auth_session.dfy`) models the client session provider as the
  class `AuthProvider`. It holds `authLevel`, `isLoading` and a reference to a
  `LocalStorage` object. That object is shared by all page loads, so a reload is a
  fresh `AuthProvider` on the same storage. The answer of the login call is an
  input `LoginOutcome`, and `OutcomeOf` links it to the endpoint's response.
  `Synced()` says that the tier in memory is the one a reload would restore.
  Login, logout and mount keep or establish it.
- `ProtectedRoute` (`protected_route.dfy`) models the route guard: `RedirectOf` is
  the effect's `router.push` decision, `ViewOf` is the render decision, and a
  lemma shows that the two agree.
- `Levels` holds the tier type `'none' | 'user' | 'admin'`. `Wrappers` holds `Option`.

A consequence of the code as written, visible in `Post`'s contract: a read failure
during `POST` makes the handler start from an empty list, so the write that
follows replaces the whole stored collection with the one new item. `Delete`
behaves the same way: after a read failure it stores an empty list.

## Model

| member | source | states |
|---|---|---|
| `ItemsRoute.OrEmpty` | app/api/items/route.ts:37-39 | `subtitle \|\| ''` gives the field when it is a non-empty string and `''` otherwise |
| `ItemsRoute.Decimal` | app/api/items/route.ts:35 | the id made from the timestamp is a non-empty string of decimal digits with no leading zero whose value read back as a number is the timestamp, so it always passes `DELETE`'s `id` check |
| `ItemsRoute.DecimalInjective` | app/api/items/route.ts:35 | two ids made from timestamps are equal exactly when the timestamps are equal |
| `ItemsRoute.Loaded` | app/api/items/route.ts:7-16 | the list a handler starts from is `[]` when the blob is absent or the lookup or fetch throws, and the stored list otherwise |
| `ItemsRoute.Without` | app/api/items/route.ts:53 | the filtered list holds no item with the id, holds every other item as often as the input did, is no longer than the input, and equals the input when no item has the id |
| `ItemsRoute.WithoutAppend` | app/api/items/route.ts:53 | filtering distributes over concatenation, so relative order is kept |
| `ItemsRoute.WithoutKeepsPosition` | app/api/items/route.ts:53 | a kept item stays between the kept items that were before it and the kept items that were after it |
| `ItemsRoute.PostThenDeleteRestores` | app/api/items/route.ts:41-53 | appending an item whose id is new to the list, then deleting that id, gives back the original list |
| `ItemsRoute.ItemStore.GetItems` | app/api/items/route.ts:7-16 | fail-open read: `[]` when the document is absent or reading throws, and the stored list otherwise |
| `ItemsRoute.ItemStore.SaveItems` | app/api/items/route.ts:18-20 | a successful write makes the document exactly the given list; a failed write leaves it unchanged |
| `ItemsRoute.ItemStore.Get` | app/api/items/route.ts:22-25 | `GET` always answers 200 with the fail-open view of the stored list |
| `ItemsRoute.ItemStore.Post` | app/api/items/route.ts:27-44 | a missing or empty title or link gives 400 `Title and link required` and leaves the store unchanged; otherwise the store becomes the loaded list plus exactly one new item at the end, and the response is that item: id from the timestamp, title and link as given, subtitle and image defaulted to `''` |
| `ItemsRoute.ItemStore.Delete` | app/api/items/route.ts:46-56 | a missing or empty id gives 400 `ID required` and leaves the store unchanged; otherwise the store becomes the loaded list without that id and the answer is `{success: true}`, also when no item had the id |
| `AuthRoute.Authenticate` | src/app/api/auth/route.ts:7-34 | each of the five outcomes happens exactly when its condition holds: 400 `Password is required` for a missing, empty or non-string password, before any configuration check; 500 `Authentication not configured` when either secret is unset or empty; admin when the password equals the admin secret; user when it equals the user secret and not the admin secret; 401 `Invalid password` otherwise; a granted tier is never `none`, and only a grant is answered with 200 and no error |
| `AuthRoute.GrantedIsHighestMatchingTier` | src/app/api/auth/route.ts:25-34 | with valid input, the granted tier is the highest tier whose secret equals the password, and 401 means that no secret equals it |
| `AuthRoute.EqualSecretsResolveToAdmin` | src/app/api/auth/route.ts:25-28 | when both secrets are equal, that password is granted admin |
| `AuthSession.ParseStored` | src/lib/auth.tsx:22-25 | only a stored value of exactly `'user'` or `'admin'` is adopted |
| `AuthSession.ReloadLevel` | src/lib/auth.tsx:17-26 | a fresh provider settles on a tier other than `none` exactly when storage holds `'user'` or `'admin'`, and then it is that tier |
| `AuthSession.ReloadAfterLogin` | src/lib/auth.tsx:22-42 | the tier written to storage by a login is the tier the next load restores |
| `AuthSession.ReloadAfterLogout` | src/lib/auth.tsx:53-56 | after the key is removed, the next load restores `none` |
| `AuthSession.OutcomeOf` | src/lib/auth.tsx:39-46 | the client treats only a 200 answer as ok, and takes the tier from it |
| `AuthSession.EndpointNeverGrantsNone` | src/lib/auth.tsx:39-42 | a login through the endpoint can only store `'user'` or `'admin'` |
| `AuthSession.AuthProvider.constructor` | src/lib/auth.tsx:17-18 | the initial state is tier `none` and loading |
| `AuthSession.AuthProvider.Mount` | src/lib/auth.tsx:20-27 | loading ends; the tier becomes the stored `'user'` or `'admin'`, and otherwise stays as it was; from tier `none`, or from a state already in step with storage, the provider is then in step with storage |
| `AuthSession.AuthProvider.Login` | src/lib/auth.tsx:29-51 | the call returns true exactly on an ok answer; then the tier and the stored key both become the answered tier; on a non-ok answer or an exception it returns false and changes neither; loading is untouched |
| `AuthSession.AuthProvider.Logout` | src/lib/auth.tsx:53-56 | the tier becomes `none`, only the `authLevel` key is removed, and loading is untouched |
| `AuthSession.LoginThenReload` | src/lib/auth.tsx:20-43 | after a successful login with tier L, a reload restores L; after a failed one, a reload restores what storage held before |
| `AuthSession.LogoutThenReload` | src/lib/auth.tsx:20-56 | after a logout, a reload restores `none` |
| `Levels.NameInjective` | src/lib/auth.tsx:5 | the three tiers are written as three distinct strings |
| `ProtectedRoute.RequiredLevel` | src/components/ProtectedRoute.tsx:16 | the required tier defaults to `user` |
| `ProtectedRoute.RedirectOf` | src/components/ProtectedRoute.tsx:21-33 | no redirect while loading; `/login` exactly when loaded with tier `none`, whatever tier is required; `/` exactly when loaded with tier `user` on a page that requires admin; the push target is the path `/login` or `/` accordingly, and none in every other case |
| `ProtectedRoute.ViewOf` | src/components/ProtectedRoute.tsx:35-51 | the spinner exactly while loading; the children exactly when loaded with a tier other than `none` that meets the required tier |
| `ProtectedRoute.RenderAgreesWithRedirect` | src/components/ProtectedRoute.tsx:21-51 | the children render exactly when loaded and no redirect is issued; nothing renders exactly when a redirect is issued |

## Left out

- Blob store I/O (`head`, `put`, `fetch`) and JSON serialisation: the store is a field, and a throwing read or write is a boolean input.
- Malformed stored JSON: `response.json()` at app/api/items/route.ts:12 is returned without `await`, so a parse failure rejects past the `try/catch` and does not fail open. No contract claims fail-open for it. The parsed value is also never checked to be an item list.
- Request bodies that fail to parse, and items API body fields (`title`, `subtitle`, `link`, `image`, `id`) that are JSON values other than strings (numbers, booleans, objects): those fields are modelled as present strings or absent. The login endpoint's `password` field does distinguish a non-string value, which is answered with 400.
- `ItemsRoute.Decimal`: models `Date.now().toString()` for a whole number of milliseconds. The contract does not claim that ids are unique: the source does not make them unique, and two creations in the same millisecond collide.
- Concurrency: two concurrent read-modify-write cycles can lose an update. Every operation here runs alone.
- The catch-all 500 `Internal server error` of the login endpoint (src/app/api/auth/route.ts:35-41) and all `console.error` logging.
- React hooks, context, the router and Promise mechanics. The `useAuth` throw outside a provider (src/lib/auth.tsx:65-71) is left out too.
- The login request is an input `LoginOutcome`. `data.level` is trusted as in the source, so `Login` accepts any tier without validating it.
- Storage exceptions (a full or disabled `localStorage`) and changes to storage made by other tabs.
- The pages that call these APIs (dashboard, admin panel, footer) are presentation only, so they are not part of this model.
