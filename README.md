# delete_user: a verified model of the account-deletion edge function

This project models the Supabase edge function `delete_user`. An administrator calls it
to delete a user account. The function is a fail-fast chain of gates:

1. the HTTP method must be `POST`;
2. the three environment values must be set;
3. the caller's bearer token must resolve to a user;
4. the caller must have a `staff` row;
5. the caller must be an administrator;
6. the body must carry a `user_id`.

Once every gate passes, the function deletes the target's rows from `perfil`,
`device_authorizations` and `staff`. These deletes are best effort: their errors are
ignored. Last, it deletes the target's auth identity. That deletion is the one step whose
error is reported.

Files and modules:

- `store.dfy`
  - `Wrappers`: `Option`.
  - `Store`: the row types, the platform `Snapshot`, and deletion by filter (`Without`),
    with its multiset contract and its idempotence.
- `privilege.dfy` (`Privilege`): ASCII lower-casing and the administrator test `IsAdmin`.
  The test is characterised against a separate letter-by-letter definition, `SpelledAs`.
- `handler.dfy` (`DeleteUser`): the handler as a specification.
  - Inputs: the request, the environment, and the platform's answers (`Answers`).
  - Outputs: the `Response` (status plus JSON payload) and the list of platform calls made (`Step`).
  - `Gate` covers lines 5-72 of the source. `Cascade` covers lines 74-89. `Handle` is the whole invocation.
- `platform.dfy` (`Backend`): class `Platform` holds the three tables and the identity set
  as fields.
  - `HandleRequest` is the handler written as the source runs it: early returns, then
    in-place deletes in source order.
  - Its postcondition equates its response, the new platform state and the call list with `Handle`.
- `properties.dfy` (`Properties`): what the handler guarantees, as lemmas about `Handle`.

Things the platform decides are parameters. The two reads, `auth.getUser()` and the
caller's staff row from `maybeSingle()`, can return a value, no data, an error object, or a
rejected promise (`LookupThrew`). Each delete and `auth.admin.deleteUser` can succeed,
return an error object, or reject (`EffectThrew`).

A rejected promise lands in the handler's `catch`, which answers 500 `unexpected`. A delete
that reports an error or throws is modelled as not applied.

## Model

| member | source | states |
|---|---|---|
| `Store.Without` | supabase/functions/delete_user/index.ts:74-76 | a filtered delete removes every row the filter selects and keeps every other row with its multiplicity |
| `Store.WithoutNothingSelected` | supabase/functions/delete_user/index.ts:74-76 | a delete whose filter selects no row leaves the table unchanged |
| `Store.WithoutIdempotent` | supabase/functions/delete_user/index.ts:74-76 | repeating a delete removes nothing more |
| `Store.PerfilWithout` | supabase/functions/delete_user/index.ts:74 | the profile delete removes exactly the rows whose `id` or `user_id` is the target |
| `Store.DevicesWithout` | supabase/functions/delete_user/index.ts:75 | the device-authorization delete removes exactly the rows whose `staff_id` is the target |
| `Store.StaffWithout` | supabase/functions/delete_user/index.ts:76 | the staff delete removes exactly the rows whose `id` is the target |
| `Privilege.ToLowerAscii` | supabase/functions/delete_user/index.ts:54 | lower-casing keeps the length and lower-cases each ASCII letter in place |
| `Privilege.LowersTo` | supabase/functions/delete_user/index.ts:54-55 | a text lower-cases to a lower-case word exactly when it spells that word in any mix of cases |
| `Privilege.RoleText` | supabase/functions/delete_user/index.ts:54 | a null role reads as "", any other role as itself |
| `Privilege.IsAdmin` | supabase/functions/delete_user/index.ts:54-55 | `is_admin` true always makes an admin; with a null role, only `is_admin` true does |
| `Privilege.IsAdminExactly` | supabase/functions/delete_user/index.ts:54-55 | a staff row is admin iff `is_admin` is the boolean true or the role (null read as "") spells "admin" or "administrador" in any case |
| `Privilege.CapitalisedRoleIsAdmin` | supabase/functions/delete_user/index.ts:54-55 | role "Administrador" passes whatever `is_admin` holds |
| `Privilege.OrdinaryRowsAreNotAdmin` | supabase/functions/delete_user/index.ts:54-55 | `is_admin` false with role "user", or both null, is not admin |
| `DeleteUser.Present` | supabase/functions/delete_user/index.ts:12-16 | an environment value passes exactly when it is set and non-empty |
| `DeleteUser.Configured` | supabase/functions/delete_user/index.ts:12-16 | the configuration gate passes exactly when all three values are set and non-empty |
| `DeleteUser.TargetOf` | supabase/functions/delete_user/index.ts:64-67 | the target is non-empty exactly when the body parsed and carries a non-empty `user_id`, and then it is that `user_id` |
| `DeleteUser.Fault` | supabase/functions/delete_user/index.ts:90-95 | the catch-all answers `unexpected` with the given detail and the status listed for that code, 500 |
| `DeleteUser.Gate` | supabase/functions/delete_user/index.ts:5-72 | a rejection has requested no deletion; an admission carries the body's non-empty `user_id` and the resolved caller's id |
| `DeleteUser.Cascade` | supabase/functions/delete_user/index.ts:74-89 | the first call is the profile delete and every call is a deletion; the status is 200 or 500; the identity set changes only by losing the target, and only with a 200 |
| `DeleteUser.Handle` | supabase/functions/delete_user/index.ts:4-95 | every status is 405, 500, 401, 403, 400 or 200; the platform changes only when all gates passed and the profile delete was issued; an identity is removed only with a 200 |
| `Backend.Platform.DeletePerfilRows` | supabase/functions/delete_user/index.ts:74 | on success the profile table loses the target's rows; on error it is unchanged; nothing else changes |
| `Backend.Platform.DeleteDeviceRows` | supabase/functions/delete_user/index.ts:75 | on success the device-authorization table loses the target's rows; on error it is unchanged |
| `Backend.Platform.DeleteStaffRows` | supabase/functions/delete_user/index.ts:76 | on success the staff table loses the target's row; on error it is unchanged |
| `Backend.Platform.DeleteIdentityOf` | supabase/functions/delete_user/index.ts:78 | on success the target leaves the identity set; on error the set is unchanged |
| `Backend.Platform.HandleRequest` | supabase/functions/delete_user/index.ts:4-95 | the early-return handler's response, calls and new state are those of `Handle` on the old state |
| `Backend.Platform.RunCascade` | supabase/functions/delete_user/index.ts:74-89 | the in-place deletes in source order give the response, deletion calls and state of `Cascade` |
| `Properties.NonPostRejected` | supabase/functions/delete_user/index.ts:5-10 | a method other than POST gives 405 `method_not_allowed` with no call and no change |
| `Properties.MissingEnvRejected` | supabase/functions/delete_user/index.ts:12-21 | a missing or empty environment value gives 500 `missing_env` with no call and no change |
| `Properties.UnresolvedCallerUnauthorized` | supabase/functions/delete_user/index.ts:31-37 | a caller resolution that errs or finds no user gives 401 `unauthorized` after that single call, with no change |
| `Properties.UnknownCallerRejected` | supabase/functions/delete_user/index.ts:41-52 | a staff lookup for the caller's id that errs or finds nothing gives 403 `caller_not_found`, with no change |
| `Properties.NonAdminForbidden` | supabase/functions/delete_user/index.ts:54-62 | a staff row that is not admin by either test gives 403 `forbidden`, with no change |
| `Properties.MissingTargetRejected` | supabase/functions/delete_user/index.ts:64-72 | for an admin, an unparsable body or a missing or empty `user_id` gives 400 `missing_user_id`, with no change |
| `Properties.AdmittedExactly` | supabase/functions/delete_user/index.ts:5-72 | the gates pass iff POST, full configuration, no client fault, a resolved caller, a found admin staff row and a non-empty `user_id` |
| `Properties.RejectionHasNoEffect` | supabase/functions/delete_user/index.ts:4-72 | every path that stops before line 74 leaves the platform unchanged, requests no deletion, and answers 405, 500, 401, 403 or 400 |
| `Properties.AdmittedRunsCascade` | supabase/functions/delete_user/index.ts:72-74 | once the gates pass, the handler's calls are caller resolution, the staff lookup for the resolved caller, then the cascade's calls; its response and state are the cascade's for the target |
| `Properties.CascadeCompletes` | supabase/functions/delete_user/index.ts:74-89 | when no table delete throws, the cascade's calls are the three deletes then the identity deletion, each for the target; the response depends only on the identity deletion; each table loses the target's rows exactly when its delete succeeded |
| `Properties.CascadeRemovesExactly` | supabase/functions/delete_user/index.ts:74-78 | with the three deletes applied, exactly the rows referring to the target are gone, no remaining row refers to it, and the identity goes exactly when its deletion succeeded |
| `Properties.FailedDeleteKeepsRows` | supabase/functions/delete_user/index.ts:74-76 | table deletes that report errors leave their tables unchanged |
| `Properties.CascadeErrorsIgnored` | supabase/functions/delete_user/index.ts:74-78 | replacing the table deletes' success or error answers changes neither the response, the calls nor the identity set |
| `Properties.IdentityDeletionDecides` | supabase/functions/delete_user/index.ts:74-89 | the identity deletion is the last call; success gives 200 `{ok:true}`; an error gives 500 `auth_delete_failed` with its message; the deletions of all three tables are not undone, and the identity set loses the target only on success |
| `Properties.ThrownDeleteStopsCascade` | supabase/functions/delete_user/index.ts:74-95 | a profile delete that throws gives 500 `unexpected`; no later delete is issued |
| `Properties.SuccessMeansIdentityRemoved` | supabase/functions/delete_user/index.ts:78-89 | the status is 200 iff the gates pass, no table delete throws and the identity deletion succeeds; then the target's identity is gone |
| `Properties.UnexpectedOnlyFromFaults` | supabase/functions/delete_user/index.ts:90-95 | 500 `unexpected` appears only when the client construction or a platform call threw |
| `Properties.RepeatChangesNoRow` | supabase/functions/delete_user/index.ts:74-76 | repeating a deletion whose three table deletes were applied changes no row |
| `Properties.RepeatFailsAtIdentity` | supabase/functions/delete_user/index.ts:78-84 | after a 200, a repeat against a platform that only deletes identities it holds answers 500, with `auth_delete_failed` and the platform's message when it reports an error |
| `Properties.AdministradorDeletesU123` | supabase/functions/delete_user/index.ts:54-89 | an "Administrador" caller deleting "u123" with every call succeeding gets 200; the calls are the three deletes then the identity deletion, all for "u123"; "u123" leaves the identity set |
| `Properties.WireNamesDistinct` | supabase/functions/delete_user/index.ts:5-95 | the error codes are sent as distinct strings |

## Left out

- `android/app/build.gradle.kts` is not modelled. It is build and signing configuration, with no request-handling behaviour.
- HTTP transport, `Deno.serve`, response headers and JSON serialisation are left out. A response is a status plus a `Payload` value.
- Header reading and the two `createClient` calls are left out. The Authorization header counts only through the `getUser` answer passed in. A throwing construction is the `clientFault` input.
- The Supabase client and PostgREST are not modelled. Their answers are inputs.
  - Nothing ties the staff-lookup answer to the `staff` table's contents.
  - `maybeSingle`'s error on several rows is one of the `LookupError` answers.
- The profile filter at line 74 is built by string interpolation. It is modelled as plain equality on `id` or `user_id`. A target containing `,` or `)` could change what the real filter selects.
- `String(...)` of a non-string `user_id` or `role` (a number, an object) is left out. Both are modelled as optional strings, with null and absent read as "".
- `toLowerCase` is modelled for ASCII letters only. Non-ASCII case mappings are not modelled.
- The catch-all's `String(e)` is not modelled. The detail string arrives with the thrown answer.
- A delete that throws is modelled as not applied. The real platform may already have deleted the rows.
- The platform is abstract: deleting a row or an identity changes nothing else. Foreign-key cascades or triggers in the real database (for example, an `auth.users` deletion cascading to `perfil.user_id`) are not modelled. The "nothing else changes" results (`Properties.CascadeCompletes`, `Properties.CascadeRemovesExactly`, `Properties.FailedDeleteKeepsRows`, and the identity deletion leaving the tables as they were) hold for this abstract platform only.
- Async scheduling and concurrent invocations are left out. One invocation runs sequentially.
- Properties.RepeatFailsAtIdentity: the second run's `auth_delete_failed` holds only under the stated assumption that the platform reports success only for an identity it holds. That is the platform's behaviour, not the handler's.
- The privileged role names are the two literals in the code, "admin" and "administrador". There is no configurable list of localised names.
