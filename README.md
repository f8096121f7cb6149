# drinkdex-API user accounts: self-service handlers and the user router

This project models two parts of the drinkdex REST API.

The first is the user controller's self-service handlers, which work on the
caller's own user record:
- `filterObj`, the field whitelist;
- `updateMe`, which refuses password fields and writes only `username` and `email`;
- `addDrink` and `removeDrink`, which `$push` an id onto `savedDrinks` or `$pull` it off;
- `deleteMe`, a soft delete;
- `getMe`, which points the `id` parameter at the caller;
- `createUser`, which always refuses.

The user collection is a `UserStore` object holding a map from id to `User`.
The request is a `Request` object holding `params`, `body` and the `user` that
the authentication gate attached. The handlers are methods that update these
objects in place. Their contracts are stated through pure functions on the
record (`ApplyChange`, `PushDrink`, `PullDrink`, `Deactivate`), and lemmas
about those functions carry the guarantees: nothing else changes, round trips
restore the record, and so on.

The second part is the user router. `Routing` is a small model of an Express
router:
- a stack of layers, built in registration order by `use` and route calls;
- case-insensitive, segment-by-segment path matching;
- an operational `Dispatch` that walks the stack, letting every gate met
  before the first matching route decide;
- a declarative access-level table (`RequiredLevel`, `Decide`), proved equal
  to `Dispatch` for every stack whose role gates all admit exactly the admin
  role, as `restrictTo('admin')` does. The level table ranks any role gate as
  admin-only, so for a gate admitting other roles the two can differ; the
  user stack has no such gate.

`UserRoutes` builds the user router with the same calls as
`routes/userRoutes.js`, in three sections:
- public routes, before `protect`;
- account routes, behind `protect`;
- administration routes, behind `restrictTo('admin')`.

For every route it proves who is served and who is refused, as
unauthenticated or as forbidden.

The gates are abstract. A request carries a `Principal`, which is either
`Anonymous` or `LoggedIn(role)`: it stands for what `protect` would establish.

Files:
- `common.dfy`: `Option`, `Result`, errors, JSON values and JavaScript truthiness.
- `user_model.dfy`: `Role` and the `User` record.
- `user_controller.dfy`: the controller handlers.
- `routing.dfy`: the router model and its theorems.
- `user_routes.dfy`: the user router and the per-route lemmas.

## Model

| member | source | states |
|---|---|---|
| UserController.FilterObj | controllers/userController.js:8-18 | the result holds exactly the keys of `obj` that are in `allowedFields`, each with its original value; the loop copies into a fresh map and leaves `obj` alone |
| UserController.Whitelisted | controllers/userController.js:8-18 | the reference filter: a sub-map of `obj` with the same values, holding only allowed keys and every allowed key that `obj` has |
| UserController.WhitelistIdempotent | controllers/userController.js:8-18 | filtering twice with the same fields gives the same result as filtering once |
| UserController.MentionsPassword | controllers/userController.js:21 | the guard holds if and only if `password` or `passwordConfirm` is present with a truthy value; a missing key, `null`, `false`, `0` or `""` does not trip it |
| UserController.CastField | controllers/userController.js:27-31 | casting one string path with validators: an absent path stays absent, a string is kept, any other value is refused for that path |
| UserController.CastProfile | controllers/userController.js:25-31 | the filtered update is accepted if and only if every `username`/`email` it holds is a string; when it is accepted, the change carries exactly those values |
| UserController.ApplyChange | controllers/userController.js:27-31 | the updated record differs from the old one at most in `username` and `email`, and each of these takes the new value exactly when the change names it |
| UserController.UpdateMeCannotEscalate | controllers/userController.js:25-31 | whatever the body holds, an accepted update keeps `id`, `role`, `active`, the password hash and `savedDrinks`; `username`/`email` come from the body if present and are kept otherwise |
| UserController.UpdateMe | controllers/userController.js:20-39 | a truthy `password` or `passwordConfirm` gives error 400 with the store unchanged; a cast failure leaves the store unchanged; otherwise the caller's record is replaced by `ApplyChange` and returned, or the result is empty and the store unchanged when the record is missing |
| UserController.PushDrink | controllers/userController.js:43-46 | only `savedDrinks` changes; it grows by one, keeps its earlier entries, and ends with the id |
| UserController.AddKeepsDuplicates | controllers/userController.js:43-46 | pushing an id that is already saved adds another copy (`$push`, not `$addToSet`) |
| UserController.Pull | controllers/userController.js:68-71 | the pulled id no longer occurs, and every other element keeps its count |
| UserController.PullDrink | controllers/userController.js:68-71 | only `savedDrinks` changes; the id is gone from it and every other id keeps its count |
| UserController.PullDistributes | controllers/userController.js:68-71 | pulling from a concatenation pulls from each part, so the kept entries keep their order |
| UserController.PullUnchangedIff | controllers/userController.js:68-71 | a pull leaves the list exactly as it was if and only if the id is absent |
| UserController.PullIdempotent | controllers/userController.js:68-71 | pulling the same id twice is the same as pulling it once |
| UserController.AddThenRemoveRestores | controllers/userController.js:41-81 | pushing an id that was not saved and then pulling it gives back the original record |
| UserController.AddDrink | controllers/userController.js:41-64 | when the caller's record exists it is replaced by `PushDrink` and returned; otherwise the result is error 404 and the store is unchanged |
| UserController.RemoveDrink | controllers/userController.js:66-89 | when the caller's record exists it is replaced by `PullDrink` and returned; otherwise the result is error 404 and the store is unchanged |
| UserController.Deactivate | controllers/userController.js:92 | the record is kept with `active` false, and no other field changes |
| UserController.DeleteMe | controllers/userController.js:91-98 | always answers 204; the set of stored ids is unchanged, and the caller's record, if present, is replaced by `Deactivate` |
| UserController.CreateUser | controllers/userController.js:100-105 | always answers 500, status "error", with the message that points to /signup |
| UserController.GetMe | controllers/userController.js:107-110 | `params.id` becomes the caller's id, and nothing else in the request changes |
| Routing.Router.constructor | routes/userRoutes.js:7 | a new router has an empty stack |
| Routing.Router.Use | routes/userRoutes.js:9 | `use` appends one middleware layer to the stack and changes nothing else |
| Routing.Router.Route | routes/userRoutes.js:11-17 | a route registration appends one route layer, with its pattern and verb handlers, to the stack |
| Routing.Bind | routes/userRoutes.js:17 | every `:name` parameter of the pattern is bound and nothing else is; a parameter whose name does not occur again later in the pattern is bound to its own path segment |
| Routing.RepeatedParamTakesLast | routes/userRoutes.js:17 | parameters are written left to right, so a repeated name takes the later segment (no user route repeats a name) |
| Routing.SegmentMatches | routes/userRoutes.js:11-44 | a literal segment matches a path segment exactly when both have the same length and agree letter by letter up to ASCII case |
| Routing.Matches | routes/userRoutes.js:11-44 | a pattern matches only paths with as many segments |
| Routing.MatchesSegmentwise | routes/userRoutes.js:11-44 | a pattern matches a path if and only if they have as many segments and each segment matches its pattern segment |
| Routing.MatchIgnoresCase | routes/userRoutes.js:11-44 | two paths that differ only in ASCII letter case are matched by the same patterns |
| Routing.GateVerdict | routes/userRoutes.js:20-35 | CORS lets everything through; `protect` refuses an anonymous caller as unauthenticated; a role gate allows exactly logged-in callers whose role it lists, refusing anonymous callers as unauthenticated and other roles as forbidden |
| Routing.DispatchOutcomes | routes/userRoutes.js:9-44 | walking the stack ends without a route only when no route answers the request, serves only when some route does, and a refusal never carries "allowed" |
| Routing.LevelIsStrongestGate | routes/userRoutes.js:20-35 | the level before layer `i` is the strongest level among the layers before `i`: no earlier layer demands more, and unless it is public some earlier layer demands exactly it |
| Routing.Decide | routes/userRoutes.js:9-44 | the level table ends without a route only when no route answers, serves only when one does, never refuses an admin, and forbids only a logged-in caller on a stack that ends admin-only |
| Routing.FirstRoute | routes/userRoutes.js:24-42 | the result is the first route layer that answers the request: it answers it and no earlier layer does; or no layer answers it |
| Routing.Authorize | routes/userRoutes.js:20-35 | allowed if and only if the level is public, or the principal is logged in and is either past the authentication gate alone or an admin; unauthenticated if and only if a gated level meets no principal; forbidden if and only if a logged-in non-admin meets the admin level |
| Routing.DispatchFollowsLevels | routes/userRoutes.js:9-44 | on every stack whose role gates admit exactly the admin role, walking the stack gives the same decision as the level table: the first matching route, admitted by the strongest gate registered before it; a request that no route answers still meets every gate |
| Routing.LevelsNeverDecrease | routes/userRoutes.js:20-35 | the required level never decreases along registration order |
| Routing.DecidedAt | routes/userRoutes.js:9-44 | a request that route `i` is the first to answer is decided by the level of the gates before `i` |
| Routing.DecidedNowhere | routes/userRoutes.js:9-44 | a request that no route answers is decided by every gate on the stack |
| Routing.DispatchPastUnanswered | routes/userRoutes.js:9-44 | a request that no route of a prefix answers is admitted by that prefix's gates and then goes on to the rest |
| Routing.DispatchWithinPrefix | routes/userRoutes.js:9-44 | a request that some route of a prefix answers never reaches the layers after it |
| Routing.RequiredLevelAppend | routes/userRoutes.js:20-35 | the level after two sections is the stronger of their levels |
| Routing.DispatchSection | routes/userRoutes.js:9-44 | a request answered first by route `k` of a run of routes is decided by the gates before the run and served by route `k`'s handlers with its bound parameters |
| UserRoutes.BuildUserRouter | routes/userRoutes.js:7-44 | the router holds the user stack, in registration order |
| UserRoutes.MountPublicRoutes | routes/userRoutes.js:11-17 | appends the five public routes |
| UserRoutes.MountAccountRoutes | routes/userRoutes.js:22-32 | appends the six account routes |
| UserRoutes.MountAdminRoutes | routes/userRoutes.js:37-44 | appends the two administration routes |
| UserRoutes.UserStackAdminGatesOnly | routes/userRoutes.js:35 | the only role gate on the stack admits exactly the admin role |
| UserRoutes.AccountSectionLevel | routes/userRoutes.js:9-20 | the layers up to and including `protect` demand an authenticated principal |
| UserRoutes.SectionLevels | routes/userRoutes.js:20-35 | everything after `restrictTo('admin')`, unrouted requests included, demands an admin |
| UserRoutes.GatesAccumulate | routes/userRoutes.js:20-35 | every layer after `protect` demands at least a login, and every layer after the admin gate demands an admin |
| UserRoutes.ServedPublicly | routes/userRoutes.js:9-17 | a request answered first by a public route is served to anyone, anonymous callers included |
| UserRoutes.ServedToMembers | routes/userRoutes.js:20-32 | a request answered first by an account route is served to any logged-in caller and refused as unauthenticated otherwise |
| UserRoutes.ServedToAdmins | routes/userRoutes.js:35-44 | a request answered first by an administration route is served to admins, refused as forbidden for other roles, and refused as unauthenticated for anonymous callers |
| UserRoutes.SignUpIsPublic | routes/userRoutes.js:11 | POST /signup runs `signUp` for any caller |
| UserRoutes.LoginIsPublic | routes/userRoutes.js:12 | POST /login runs `login` for any caller |
| UserRoutes.LogoutIsPublic | routes/userRoutes.js:14 | POST /logout runs `logout` for any caller |
| UserRoutes.ForgotPasswordIsPublic | routes/userRoutes.js:16 | POST /forgotPassword runs `forgotPassword` for any caller |
| UserRoutes.ResetPasswordIsPublic | routes/userRoutes.js:17 | PATCH /resetPassword/:token runs `resetPassword` for any caller, with the token bound |
| UserRoutes.UpdateMyPasswordNeedsLogin | routes/userRoutes.js:22 | PATCH /updateMyPassword is refused as unauthenticated without a principal and runs `updatePassword` for any role |
| UserRoutes.MeNeedsLogin | routes/userRoutes.js:24 | GET /me, in any letter case, needs a login only (not admin), and runs `getMe` then `getUser`, ahead of the admin-only /:id route |
| UserRoutes.UpdateMeNeedsLogin | routes/userRoutes.js:25 | PATCH /updateMe is refused as unauthenticated without a principal and runs `updateMe` for any role |
| UserRoutes.DeleteMeNeedsLogin | routes/userRoutes.js:26 | DELETE /deleteMe is refused as unauthenticated without a principal and runs `deleteMe` for any role |
| UserRoutes.AddDrinkNeedsLogin | routes/userRoutes.js:28-29 | PATCH /addDrink/:id is refused as unauthenticated without a principal and runs `addDrink` for any role, with `id` bound |
| UserRoutes.RemoveDrinkNeedsLogin | routes/userRoutes.js:31-32 | PATCH /removeDrink/:id is refused as unauthenticated without a principal and runs `removeDrink` for any role, with `id` bound |
| UserRoutes.ListUsersNeedsAdmin | routes/userRoutes.js:37-38 | GET / is unauthenticated for anonymous callers, forbidden for non-admins, and runs `getAllUsers` for admins |
| UserRoutes.CreateUserNeedsAdmin | routes/userRoutes.js:37-39 | POST / is unauthenticated for anonymous callers, forbidden for non-admins, and runs `createUser` for admins |
| UserRoutes.UserByIdNeedsAdmin | routes/userRoutes.js:41-44 | GET, PATCH and DELETE /:id, for any id that no earlier route takes, are unauthenticated for anonymous callers, forbidden for non-admins, and run `getUser`, `updateUser` or `deleteUser` for admins with `id` bound |
| UserRoutes.UnroutedNeedsAdmin | routes/userRoutes.js:35 | a request that no route answers still meets the admin gate: it is unauthenticated, forbidden, or falls out of the router for admins |
| UserRoutes.PostByIdIsUnrouted | routes/userRoutes.js:41-44 | POST /:id has no route, so it ends at the admin gate |

## Left out

- `app.js` (CORS options, cookie parsing, static files, logging, rate limiting, body limits, sanitising middleware, mounting, the 404 catch-all and the global error handler) is Express wiring and is not part of this model. In particular, the status code a `SchemaRejected` error finally receives is not modelled.
- `authController` is not part of this model. `protect`, `restrictTo` and the handlers `signUp`, `login`, `logout`, `forgotPassword`, `resetPassword` and `updatePassword` appear only as names. The principal `protect` attaches is an input, and a role gate reached without a principal refuses with "unauthenticated".
- `handlerFactory` (`getAll`, `getOne`, `updateOne`, `deleteOne`, which back `getAllUsers`, `getUser`, `updateUser` and `deleteUser`) is not part of this model. Those handlers appear in the router only as names.
- `userModel` is not part of this model. The query middleware that hides inactive users is therefore not modelled, and store lookups see every record. The cast of drink ids to object ids and the schema's validators are not modelled either.
- UserController.CastField: accepts only JSON strings and refuses every other value; Mongoose would store a number or boolean as its string form. The user schema is not part of this model.
- UserController.CastProfile: inherits the string-only cast of `CastField` for `username` and `email`.
- UserController.UpdateMe: the schema cast of `username` and `email` accepts only JSON strings and refuses every other value. Mongoose's own casting of numbers or booleans to strings is not modelled, because the schema is not part of this model.
- UserController.AddDrink, UserController.RemoveDrink, UserController.UpdateMe and UserController.DeleteMe: the update is atomic. Concurrent requests, `catchAsync` and the promise machinery are left out.
- The HTTP response envelope (`status`/`data` JSON) is left out. Handlers return the record or the error they would send.
- Routing: only GET, POST, PATCH and DELETE are modelled. A request with any other verb, such as PUT, would match no route here, so like `PostByIdIsUnrouted` it would meet both gates and fall out of the router; that case is not stated.
- Routing: HEAD and OPTIONS handling, strict or trailing-slash routing, URL decoding, and the splitting of a URL into segments are left out; requests arrive as lists of decoded segments. Letter case is folded for ASCII only.
- Routing: the CORS middleware only lets requests through here; its headers and preflight answers are left out.
