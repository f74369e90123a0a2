# Plan manager: token check and plan record handlers

A Dafny model of two parts of the plan-management service.

- **`Auth`** (`auth.dfy`) models `checkToken`. It is a chain of early returns that decides whether the request's `authorization` header lets the caller act. It returns one of four reason strings, or `''` when the caller is authorized. The chain runs in this order: header present, bearer segment (`split(' ')[1]`), signature, expiry, authority `code`, caller `userType`. The model is one pure function. `jwt.verify` and the validation endpoint are oracle parameters, and `Date.now()` is the parameter `now`. Lemmas state the iff for `''`, the order of the checks, the strict expiry comparison, and which oracles a rejected request never consults.
- **`PlanRoutes`** (`plan_routes.dfy`) models the route bodies of the plan controller. Class `PlanController` holds the four tables: Plan, PlanIntermedio, PlanPremium, DescriptionFeature. Each table maps a row's `id` to the row, and a row is an attribute object. Each handler is a method that reads the tables, assigns attributes step by step, saves or destroys, and returns `{status, reply}`. A thrown error becomes 500, with `errorHandling`'s body kept opaque. Every method keeps `Valid()`: each row is stored under its own `id`, and no handler changes an `id`. Each method states its complete new state, including which tables are left alone.
- **`Values`** (`values.dfy`) holds the JavaScript values involved: scalars, truthiness, and property access that reads a missing key as `undefined`.

Behaviour the code has and the model keeps as written:

- An empty POST `/plans` body throws an error with code 400, but the handler answers 500.
- `create` receives the whole body, so extra keys such as `id` are kept.
- The five self-assignments of the destructuring add any missing plan attribute as `undefined`.
- The intermediate and premium PUT/DELETE handlers work on the **Plan** table.
- POST `/plans/premium` stores the three intermediate flags in PlanPremium.
- GET `/plans/intermedio` refers to an unbound `plan`, so it always returns 500.
- PUT `/descriptionFeatures/:id` never awaits `findOne`, so it always returns 500 and changes nothing.
- A missing id on PUT or DELETE dereferences `null`, which gives 500.
- `exp` is compared directly with epoch milliseconds, and the comparison is strict (`now > exp`).
- A falsy `userType` passes the role check.

Where the service's design description disagrees with the code, the model follows the code:

| Topic | Design description | Code (followed here) |
|---|---|---|
| Role check | rejects any `userType` other than the required role | rejects only a truthy `userType` other than 3 |
| Token extraction | "substring after the scheme prefix" | the second piece of `split(' ')`; the scheme word is never checked |
| Unknown id on update or delete | 404 | 500 |
| Tier singleton, cascading deletes, composite views, token gating of the plan routes | described | absent from this controller |

## Model

| member | source | states |
|---|---|---|
| `Auth.CheckToken` | src/utils/checkToken.js:5-44 | Always returns one of the four reasons or `''`. Returns the missing-token reason exactly when the header is absent or empty. |
| `Auth.DecisionTable` | src/utils/checkToken.js:9-39 | The result is the reason of the first failing gate, in the order header, signature, expiry, authority code, role; `''` when none fails. Later gates cannot change it. |
| `Auth.FirstFailure` | src/utils/checkToken.js:9-39 | The index it returns is the first false gate: every earlier gate holds, and it is `|gates|` only when all gates hold. |
| `Auth.AuthorizedIff` | src/utils/checkToken.js:8-40 | `''` exactly when all of these hold: a header is present, it has a bearer segment, that segment verifies, `now <= exp` or there is no `exp`, the authority answers with `code == 200`, and `userType` is falsy or 3. |
| `Auth.ExpiryIsStrict` | src/utils/checkToken.js:21-23 | For a verified token with an `exp`, the expired reason is returned exactly when `now > exp`. At `now == exp` the token is not expired. |
| `Auth.MissingHeaderConsultsNothing` | src/utils/checkToken.js:8-11 | When the header is missing or empty, the result is the missing-token reason whatever `verify`, the clock and the authority would say. |
| `Auth.UnverifiedIsInvalid` | src/utils/checkToken.js:12-13 | A header with no bearer segment, or a segment `verify` rejects, gives the invalid-token reason whatever the clock and the authority say. |
| `Auth.ExpiredSkipsAuthority` | src/utils/checkToken.js:21-32 | An expired token gives the expired reason whatever the remote authority would answer. |
| `Auth.AuthorityGetsHeader` | src/utils/checkToken.js:24-33 | The outcome depends on the remote call only through its answer for the original header. |
| `Auth.AuthorityVerdict` | src/utils/checkToken.js:32-39 | Past expiry: a failed call, or a `code` other than 200, gives the invalid-token reason. With code 200, the permission reason is returned exactly when `userType` is truthy and not 3. |
| `Auth.Split` | src/utils/checkToken.js:12 | `split(' ')` returns at least one piece, and no piece contains a space. There is more than one piece exactly when the input contains a space. |
| `Auth.JoinSplit` | src/utils/checkToken.js:12 | Joining the pieces of `split(' ')` with single spaces gives back the header. |
| `Auth.SplitJoin` | src/utils/checkToken.js:12 | Splitting a space-joined list of space-free pieces gives back exactly that list. |
| `Auth.BearerSegment` | src/utils/checkToken.js:12 | The token is undefined exactly when the header has no space. A token never contains a space. |
| `Auth.BearerToken` | src/utils/checkToken.js:12 | Any scheme word, a space, then a token: the token is what follows the first space, up to the next space. |
| `PlanRoutes.PlanController.ListPlans` | src/controllers/PlanController.js:17-25 | Returns 200 with every Plan row. |
| `PlanRoutes.PlanController.GetPlan` | src/controllers/PlanController.js:27-34 | Returns 200 with the row whose `id` is the parameter, or with `null` when there is none. |
| `PlanRoutes.PlanController.CreatePlan` | src/controllers/PlanController.js:36-55 | An undefined, null or key-less body gives 500 with error code 400, and the store is unchanged. Otherwise the row holds every key of the body plus the five plan attributes. Its `id` is the body's `id` when one is given, and a freshly allocated one otherwise. The row is inserted and returned with 201. An id already taken gives 500 with the store unchanged. |
| `PlanRoutes.PlanController.UpdatePlan` | src/controllers/PlanController.js:58-71 | On an existing row, `name`, `typePlan`, `startDate`, `endDate` and `value` take the body's values, `undefined` included. Every other attribute, the `id` among them, and every other row stay the same. Returns 200 with the row. A missing row or a non-object body gives 500 with the store unchanged. |
| `PlanRoutes.PlanController.DeletePlan` | src/controllers/PlanController.js:73-81 | Removes exactly that row and returns it with 200. A missing id gives 500 with the store unchanged. |
| `PlanRoutes.PlanController.ListIntermedios` | src/controllers/PlanController.js:83-91 | Always returns 500, because the reply refers to an unbound identifier. |
| `PlanRoutes.PlanController.CreateIntermedio` | src/controllers/PlanController.js:93-104 | Inserts into PlanIntermedio a row holding only the three flags from the body and the allocated `id`, and returns it with 201. |
| `PlanRoutes.PlanController.UpdateIntermedio` | src/controllers/PlanController.js:106-117 | Looks the id up in the Plan table and writes the three flags onto that plan row. Everything else stays the same, including the extension tables. Returns 200. A missing id gives 500 with the store unchanged. |
| `PlanRoutes.PlanController.DeleteIntermedio` | src/controllers/PlanController.js:119-127 | Destroys the Plan row with that id and leaves the extension tables untouched. A missing id gives 500. |
| `PlanRoutes.PlanController.ListPremiums` | src/controllers/PlanController.js:129-136 | Returns 200 with every PlanPremium row. |
| `PlanRoutes.PlanController.CreatePremium` | src/controllers/PlanController.js:138-149 | Inserts into PlanPremium a row holding only the three intermediate flags and the `id`. It has none of PlanPremium's own columns. Returns it with 201. |
| `PlanRoutes.PlanController.UpdatePremium` | src/controllers/PlanController.js:151-162 | Writes the three flags onto the Plan row with that id. Nothing else changes. |
| `PlanRoutes.PlanController.DeletePremium` | src/controllers/PlanController.js:164-172 | Destroys the Plan row with that id. PlanPremium is untouched. |
| `PlanRoutes.PlanController.ListFeatures` | src/controllers/PlanController.js:174-181 | Returns 200 with every DescriptionFeature row. |
| `PlanRoutes.PlanController.CreateFeature` | src/controllers/PlanController.js:183-193 | Stores a row with `name`, `description` and the allocated `id`, and returns 201 with the body's `description`. `tipoPlan` stays unset. |
| `PlanRoutes.PlanController.UpdateFeature` | src/controllers/PlanController.js:195-205 | Always returns 500 and changes no table, because `save` is called on an un-awaited Promise. |
| `PlanRoutes.PlanController.DeleteFeature` | src/controllers/PlanController.js:207-215 | Removes exactly that feature and returns it with 200. A missing id gives 500 with the store unchanged. |

## Left out

- Express routing, middleware and JSON serialization are not modelled. This includes the earlier `/plans/:id` route shadowing `/plans/intermedio` and `/plans/premium`.
- Sequelize schema enforcement is not modelled. The tables store the attribute objects the handlers build, as an in-memory store would. A real database would reject `null`/`undefined` in `allowNull: false` columns, for example the missing `tipoPlan` of a new feature or the missing premium columns. It would also drop attributes the model does not declare, such as the flags on a Plan row and a feature's `name`.
- Value coercion by the database is not modelled (a numeric `id` 1 matching the string parameter `'1'`, DATE and FLOAT conversion). Rows are keyed by the JSON value of their `id`, and numbers are integers.
- Identifier allocation by the store is the `freshId` parameter. A taken id is modelled as a failure answered with 500.
- PlanRoutes.PlanController.ListPlans: does not model the order `findAll` returns rows in, because a map holds no order; the reply is the set of rows.
- PlanRoutes.PlanController.ListPremiums: does not model the order of rows, for the same reason.
- PlanRoutes.PlanController.ListFeatures: does not model the order of rows, for the same reason.
- Only the error kind of `errorHandling`'s reply body is kept; the body itself, `encrypt`/`decrypt`, and `console.log` output are not part of this model.
- Request bodies are undefined, null or objects of scalar values. Nested objects, arrays and NaN are not modelled.
- JWT signature verification and the remote validation call are oracle parameters, because they are foreign code and a network call. `Date.now()` is the parameter `now`.
- The design description's tier-singleton rule, cascading deletes, composite plan views and the `/planbasico*`, `/feature*`, `/features/*` and `/allplans*` routes are not modelled, because the controller shown has none of them.
