# sysPass Authenticator plugin: a Dafny model

The Authenticator plugin adds TOTP two-factor authentication (2FA) to sysPass. Each user has
one `AuthenticatorData` record. It holds:

- the TOTP secret (the "IV");
- whether 2FA is on, with the date it was switched on and its expiry in days;
- a pool of ten single-use recovery codes, 20 characters each;
- when a recovery code was last issued.

At login, `checkLogin` clears two session flags (the plugin's `twoFApass` and the session's
`authCompleted`) for a user with 2FA on and redirects them to the second-factor page. There the
user types a TOTP pin or a recovery code, or asks for a recovery code by mail. Saving the 2FA
preference is also guarded by a code check.

The plugin exists in three revisions, and this model covers the core of each one:

- **current** (`src/`): `AuthenticatorService` owns the pool, `AuthenticatorController` runs the
  checks, and `Plugin` loads the record and gates the login;
- **legacy** (`Authenticator/ActionController.php`, `Authenticator/lib/Plugin.php`): the
  plugin's own array of records and a controller that checks TOTP first;
- **oldest** (`Authenticator/ActionController.class.php`): the same array, with a different
  gate, use, pick and disable.

The files of the model:

| file | module | what it holds |
|---|---|---|
| `wrappers.dfy` | `Wrappers` | `Option` and `Result` |
| `php.dfy` | `Php` | PHP arrays as ordered key/value entries, with the builtins the plugin uses on pools |
| `php_numbers.dfy` | `PhpNumbers` | PHP's loose `==` between strings, for plain decimal numeric strings |
| `randomness.dfy` | `Randomness` | the random byte source and `bin2hex` |
| `base32.dfy` | `Base32` | the Base32 encoder of section 6 of RFC 4648 |
| `models.dfy` | `Models` | the record as a value (`Record`) and as an object (`AuthenticatorData`) |
| `host.dfy` | `Host` | the session flags, the redirect, the failed-attempt counter and the outgoing mail |
| `recovery_codes.dfy` | `RecoveryCodes` | pool generation and consumption, shared by all revisions |
| `services.dfy` | `Services` | the current `AuthenticatorService` |
| `plugin.dfy` | `Plugin` | the current `Plugin`: lazy load, login gate, upgrade dispatch |
| `controller.dfy` | `Controller` | the current `AuthenticatorController` |
| `login_controller.dfy` | `LoginController` | `checkExpireTime` of both login controllers |
| `legacy_plugin.dfy` | `LegacyPlugin` | the legacy `Plugin` and its array of records |
| `legacy_action_controller.dfy` | `LegacyActions` | the legacy `ActionController` |
| `old_action_controller.dfy` | `OldActions` | the oldest `ActionController` |

Every state-changing operation is a method on a class: the record object, the plugin, the
service, the controllers and the session. Each method's `ensures` ties the new state to a
function of the old state: `PickEffect`, `Save2FA`, `SaveEffect`, `CheckEffect` and so on. The
lemmas state what the source promises about those functions: replay rejection, that only a
valid factor passes, the quirks of the older revisions, and the relations between revisions.

The following are inputs to the model rather than parts of it:

- **TOTP check.** `Google2FA::verify_key`, and the legacy `Authenticator::verifyKey`, are an
  uninterpreted function `(pin, secret) -> bool`. `oath_totp` is one `(secret, timestep) -> code`.
- **Clock.** `time()` is a parameter `now`.
- **Randomness.** `PasswordUtil::generateRandomBytes` (`Util::generateRandomBytes` in the older
  revisions) is a byte stream with a cursor. It returns n bytes as 2n lower-case hexadecimal
  characters, which is what makes a recovery code 20 characters long.
- **Collaborators.** Whether the mail goes out, whether `PluginDataStore::save` succeeds,
  demo mode and the tracking limit are booleans.

Two behaviours of the code that a reader might not expect, and that the model keeps:

- `checkUserToken` (src/lib/Services/AuthenticatorService.php:104-112) compares the token
  with the `oath_totp` code of the current time step only; the previous step's code is
  refused (`Services.NoToleranceWindow`).
- In `checkExpireTime` (src/lib/Controllers/AuthenticatorLoginController.php:102-112) the
  warning test at line 102 also catches every negative remainder, so the
  `elseif (time() > $expireTime)` branch at line 112 is never reached
  (`LoginController.ExpiredUnreachable`, `LoginController.ExpiryExample`).

## Model

| member | source | states |
|---|---|---|
| Models.FreshDefaults | src/lib/Models/AuthenticatorData.php:39-71 | a new record has 2FA off (`twofaEnabled` 0), no recovery codes and `lastRecoveryTime` 0; its userId, date, expiry and IV are null, and the userId reads as 0 |
| Models.Record.UserId | src/lib/Models/AuthenticatorData.php:76-79 | `getUserId()` of a stored record is its user id, and 0 when that is null |
| Models.Record.IsTwofaEnabled | src/lib/Models/AuthenticatorData.php:92-95 | `isTwofaEnabled()` is true for the value `setTwofaEnabled(true)` stores and false for the one `setTwofaEnabled(false)` stores |
| Models.AuthenticatorData.GetUserId | src/lib/Models/AuthenticatorData.php:76-79 | `getUserId()` returns the user id, and 0 when it is null |
| Models.AuthenticatorData.IsTwofaEnabled | src/lib/Models/AuthenticatorData.php:92-95 | `isTwofaEnabled()` undoes the `(int)` cast of `setTwofaEnabled`: true after `true`, false after `false` |
| Models.BoolToInt | src/lib/Models/AuthenticatorData.php:100-103 | the `(int)` cast of a boolean is 0 or 1, and non-zero exactly for true |
| Models.AuthenticatorData.constructor | src/lib/Models/AuthenticatorData.php:39-71 | `new AuthenticatorData()` holds exactly the default field values |
| Models.AuthenticatorData.FromRecord | src/lib/Plugin.php:133-136 | the object the store hands out holds exactly the stored field values |
| Models.AuthenticatorData.SetUserId | src/lib/Models/AuthenticatorData.php:76-87 | only `userId` changes, and `getUserId()` then returns the value set |
| Models.AuthenticatorData.SetTwofaEnabled | src/lib/Models/AuthenticatorData.php:92-103 | only `twofaEnabled` changes, to `(int)b`, and `isTwofaEnabled()` then returns b |
| Models.AuthenticatorData.SetDate | src/lib/Models/AuthenticatorData.php:116-119 | only `date` changes, to the value set |
| Models.AuthenticatorData.SetExpireDays | src/lib/Models/AuthenticatorData.php:132-135 | only `expireDays` changes, to the value set |
| Models.AuthenticatorData.SetIV | src/lib/Models/AuthenticatorData.php:148-151 | only the IV changes, to the value set |
| Models.AuthenticatorData.SetRecoveryCodes | src/lib/Models/AuthenticatorData.php:164-167 | only the pool changes, to the value set |
| Models.AuthenticatorData.SetLastRecoveryTime | src/lib/Models/AuthenticatorData.php:180-183 | only the issue time changes, to the value set |
| Php.Search | src/lib/Services/AuthenticatorService.php:338 | strict `array_search` is false exactly when no entry holds the code; otherwise it is the key of the first entry that does |
| Php.Get | Authenticator/ActionController.php:399-400 | `$a[$k]` is undefined (null) exactly when no entry has key k; otherwise it is that entry's value |
| Php.Unset | Authenticator/ActionController.class.php:282 | `unset` keeps only entries of the array, none of them under the key, and never grows it |
| Php.UnsetAt | Authenticator/ActionController.php:178 | unsetting the key of entry i removes exactly that entry and keeps the others in order |
| Php.DropLast | src/lib/Services/AuthenticatorService.php:199 | `array_pop` leaves one entry fewer, and the values left plus the popped one are the original values |
| Php.FromList | src/lib/Services/AuthenticatorService.php:341 | `array_values` gives a list (keys 0..n-1) holding the given values in order |
| Php.Empty | src/lib/Controllers/AuthenticatorController.php:180 | `empty()` of a string holds only for strings of at most one character, and of a one-character string exactly when it is "0" |
| PhpNumbers.LooseEquals | src/lib/Plugin.php:290-291 | PHP's loose `==`, as `switch` compares, holds for every pair of equal strings |
| PhpNumbers.LooseEqualsSymmetric | src/lib/Plugin.php:290-291 | loose equality does not depend on the order of its operands |
| Randomness.Hex | src/lib/Services/AuthenticatorService.php:68 | `bin2hex` gives two lower-case hexadecimal digits per byte, all single-byte characters |
| Randomness.RandomSource.GenerateRandomBytes | src/lib/Services/AuthenticatorService.php:68 | the next n stream bytes as hexadecimal text; the cursor advances by n |
| Base32.Encode | src/lib/Services/AuthenticatorService.php:70-78 | the output has 8 symbols per started group of five bytes, all from `A-Z2-7` or the pad `=` |
| Base32.EncodePrefix | src/lib/Services/AuthenticatorService.php:78 | with at least ten input bytes, the first 16 symbols are the two full groups of the first ten bytes, with no padding |
| Base32.RfcTestVectors | src/lib/Services/AuthenticatorService.php:70-76 | the encoder the plugin configures gives the section 10 test vectors of RFC 4648 |
| Services.InitializationKey | src/lib/Services/AuthenticatorService.php:66-79 | the secret is at most 16 characters; from ten or more input bytes it is exactly 16 characters of `A-Z2-7`, the encoding of those first ten bytes |
| Services.KeyDependsOnTenCharacters | src/lib/Services/AuthenticatorService.php:78 | two inputs that agree on their first ten characters give the same secret |
| Services.KeyDependsOnFiveRandomBytes | src/lib/Services/AuthenticatorService.php:66-79 | the secret made from 32 random bytes depends only on the first five of them (their ten hexadecimal characters) |
| Services.AuthenticatorService.MakeInitializationKey | src/lib/Services/AuthenticatorService.php:66-79 | the secret is the key derived from the next 32 random bytes, 16 characters of `A-Z2-7`; the stream advances by 32 |
| Services.CurrentStepAccepted | src/lib/Services/AuthenticatorService.php:104-112 | the `oath_totp` code of the current time step is accepted |
| Services.NoToleranceWindow | src/lib/Services/AuthenticatorService.php:104-112 | the token is compared with the current time step's code only: the previous step's code is refused |
| Services.Pick | src/lib/Services/AuthenticatorService.php:192-220 | an error exactly for an empty pool inside the grace period; a regeneration exactly for an empty pool; the stored pool plus the code are the values of the pool picked from, and the code is its last one |
| Services.PickedCodeNotReusable | src/lib/Services/AuthenticatorService.php:192-220 | for a duplicate-free pool, the code handed out is not in the stored pool, so using it fails |
| Services.PickEffect | src/lib/Services/AuthenticatorService.php:192-235 | a failed pick changes nothing; a successful one stores the remaining pool with the time stamped, files the record under its user, and draws 100 bytes only when it regenerated |
| Services.AuthenticatorService.SavePluginUserData | src/lib/Services/AuthenticatorService.php:247-251 | the record is filed under its own user id; the other entries stay |
| Services.AuthenticatorService.DeletePluginUserData | src/lib/Services/AuthenticatorService.php:283-287 | the user's entry is removed; the other entries stay |
| Services.AuthenticatorService.SaveRecoveryCodes | src/lib/Services/AuthenticatorService.php:230-235 | the record gets the pool and the current time and nothing else, and is filed under its user |
| Services.AuthenticatorService.PickRecoveryCode | src/lib/Services/AuthenticatorService.php:192-220 | the result, the record, the store and the random cursor are those `PickEffect` gives |
| Services.AuthenticatorService.UseRecoveryCode | src/lib/Services/AuthenticatorService.php:335-349 | true exactly on a strict match; the first match leaves the pool, the rest is reindexed in order, the time is stamped and the record filed; without a match nothing changes |
| RecoveryCodes.FreshPool | src/lib/Services/AuthenticatorService.php:259-270 | a new pool is a list of exactly ten codes of 20 characters each |
| RecoveryCodes.GenerateRecoveryCodes | src/lib/Services/AuthenticatorService.php:259-270 | the do-while loop returns ten codes, one per pass, in draw order, and draws 100 bytes |
| RecoveryCodes.ConsumeFirst | src/lib/Services/AuthenticatorService.php:337-343 | none exactly when no entry matches; otherwise a list of the values with the first match removed |
| RecoveryCodes.ConsumeRemovesOne | src/lib/Services/AuthenticatorService.php:337-343 | a consumed code leaves exactly one entry fewer, and every other code stays with its multiplicity |
| RecoveryCodes.ConsumeReplayRejected | src/lib/Services/AuthenticatorService.php:335-349 | replaying a consumed code against a duplicate-free pool fails, and the pool stays duplicate-free |
| RecoveryCodes.PoppedCodeGone | src/lib/Services/AuthenticatorService.php:199-201 | in a duplicate-free pool, the popped code is not among the rest, so consuming it fails |
| Host.Session.SetFlags | src/lib/Controllers/AuthenticatorController.php:283-284 | `twoFApass` and `authCompleted` both take the given value |
| Host.Session.AddTracking | src/lib/Controllers/AuthenticatorController.php:139-146 | one more failed attempt is recorded |
| Plugin.LoginRedirect | src/lib/Plugin.php:161-167 | the callable's result for `authenticatorLogin/index` when one is supplied, `index.php?r=authenticatorLogin/index` otherwise |
| Plugin.Upgrade | src/lib/Plugin.php:288-295 | the 310.19012201 migration runs for the version string itself and for every plain decimal string whose number is 310.19012201; any other version does nothing |
| Plugin.UpgradeVersionValue | src/lib/Plugin.php:291 | the case label "310.19012201" is a plain decimal string for the number 310.19012201 |
| Plugin.UpgradeRunsForItsVersion | src/lib/Plugin.php:290-292 | the migration runs for "310.19012201" |
| Plugin.UpgradeTrailingZero | src/lib/Plugin.php:290-292 | "310.190122010", a different string, runs the migration too, because the comparison is loose |
| Plugin.UpgradeNonNumeric | src/lib/Plugin.php:290-292 | a version that is not a decimal string runs the migration only when it is the literal "310.19012201" |
| Plugin.Plugin.SetDataForId | src/lib/Controllers/AuthenticatorController.php:215 | the record is filed under the id, replacing any other |
| Plugin.Plugin.DeleteDataForId | src/lib/Plugin.php:268-271 | the entry under the id is gone; the rest stays |
| Plugin.Plugin.LoadData | src/lib/Plugin.php:130-140 | null exactly when the store has no record for the session user; otherwise a new object holding that record |
| Plugin.Plugin.GetData | src/lib/Plugin.php:177-187 | loads only when nothing is loaded, the session is signed in and a store is attached; otherwise hands out what is loaded, unchanged |
| Plugin.Plugin.CheckLogin | src/lib/Plugin.php:149-172 | a loaded record with 2FA on clears both flags and stores the redirect; otherwise both flags are set |
| Controller.Gate | src/lib/Controllers/AuthenticatorController.php:155-189 | a recovery code is used exactly when the pin is 20 characters and in the pool; a pin passes TOTP only when it was not used as a recovery code, is not empty and verifies |
| Controller.ShortPinLeavesPool | src/lib/Controllers/AuthenticatorController.php:157-158 | a pin of any other length never reaches the pool |
| Controller.AfterGate | src/lib/Controllers/AuthenticatorController.php:155-169 | only a used recovery code changes the record: that code leaves the pool and the time is stamped |
| Controller.EnabledRecord | src/lib/Controllers/AuthenticatorController.php:209-213 | the record is switched on for the user, from now, with the expiry and the new pool; the secret and the issue time stay |
| Controller.Save2FA | src/lib/Controllers/AuthenticatorController.php:202-240 | off to on files the enabled record; on to off deletes the user's entry; the same state changes nothing |
| Controller.CheckOutcome | src/lib/Controllers/AuthenticatorController.php:245-301 | a reset request with an address on file answers by the mail's outcome; otherwise the gate decides between correct and incorrect; a found user is never "not found" |
| Controller.CheckTracking | src/lib/Controllers/AuthenticatorController.php:266-301 | tracking is recorded exactly for a sent reset mail and for a wrong code |
| Controller.Found | src/lib/Controllers/AuthenticatorController.php:253-257 | the loaded record is found exactly when it carries the user's id |
| Controller.PassNeedsGate | src/lib/Controllers/AuthenticatorController.php:280-294 | a correct answer needs a non-empty pin that is in the pool or verifies as TOTP |
| Controller.MailReset | src/lib/Controllers/AuthenticatorController.php:327-355 | the mail succeeds exactly when a code is picked and delivered; the picked code is persisted and mailed; a failed pick changes nothing |
| Controller.MailedCodeNotReusable | src/lib/Controllers/AuthenticatorController.php:327-355 | a mailed code is not in the stored pool afterwards, when the pool had no duplicates |
| Controller.GateEffect | src/lib/Controllers/AuthenticatorController.php:280-281 | only a used recovery code changes the record and the store; nothing is drawn or mailed |
| Controller.AuthenticatorController.CheckRecoveryCode | src/lib/Controllers/AuthenticatorController.php:155-169 | true exactly for a 20-character pin in the pool, which is then consumed and persisted; otherwise nothing changes |
| Controller.AuthenticatorController.CheckPin | src/lib/Controllers/AuthenticatorController.php:178-189 | true exactly for a non-empty pin that verifies; a refusal records one tracking entry |
| Controller.AuthenticatorController.CheckCodes | src/lib/Controllers/AuthenticatorController.php:106-107 | the gate's result and record; the TOTP check, and its tracking, only when no recovery code was used |
| Controller.AuthenticatorController.EnableFor | src/lib/Controllers/AuthenticatorController.php:206-218 | the record becomes the enabled record with ten fresh codes and is filed under the user |
| Controller.AuthenticatorController.Save2FAStatus | src/lib/Controllers/AuthenticatorController.php:202-240 | the answer, record and store are those `Save2FA` gives; fresh codes are drawn only when enabling |
| Controller.AuthenticatorController.SaveRecord | src/lib/Controllers/AuthenticatorController.php:93-115 | demo mode and the attempt limit stop before any check; a rejected pin is tracked twice; otherwise the status is saved |
| Controller.AuthenticatorController.SessionRecord | src/lib/Controllers/AuthenticatorController.php:86-91 | the session's record, or a new one holding a fresh secret when there is none |
| Controller.AuthenticatorController.SaveAction | src/lib/Controllers/AuthenticatorController.php:81-134 | `SaveRecord` on the session's record, or on a new one with a fresh secret |
| Controller.AuthenticatorController.CheckCodeFor | src/lib/Controllers/AuthenticatorController.php:266-301 | the answer is `CheckOutcome`'s; correct sets both flags; a sent mail clears them; a failure leaves them; tracking follows `CheckTracking` |
| Controller.AuthenticatorController.AnswerReset | src/lib/Controllers/AuthenticatorController.php:266-278 | the mail's outcome and effects as `MailReset` gives them, with the flags and tracking of that answer |
| Controller.AuthenticatorController.AnswerMail | src/lib/Controllers/AuthenticatorController.php:266-278 | a failure answers "mail failed" and leaves the flags; a sent mail clears them and is tracked |
| Controller.AuthenticatorController.AnswerPin | src/lib/Controllers/AuthenticatorController.php:280-301 | correct exactly when the gate passes, which sets both flags; otherwise tracked twice and the flags are left |
| Controller.AuthenticatorController.CheckCodeAction | src/lib/Controllers/AuthenticatorController.php:245-317 | no record for the user clears both flags and answers "not found"; otherwise as `CheckCodeFor` |
| Controller.AuthenticatorController.SendResetEmail | src/lib/Controllers/AuthenticatorController.php:327-355 | without an address: false and nothing changes; with one: as `MailReset` |
| Controller.AuthenticatorController.MailCode | src/lib/Controllers/AuthenticatorController.php:330-344 | the pick and the mail as `MailReset` gives them |
| Controller.AuthenticatorController.Deliver | src/lib/Controllers/AuthenticatorController.php:337-344 | success exactly when a code was picked and the mail delivered; only then is the code mailed |
| LoginController.ExpireTime | src/lib/Controllers/AuthenticatorLoginController.php:99 | the expiry is the date (null as 0) plus the expiry days in seconds |
| LoginController.DaysShown | src/lib/Controllers/AuthenticatorLoginController.php:106-107 | `%d` of the remaining seconds over 86400 truncates toward zero |
| LoginController.CheckExpireTime | src/lib/Controllers/AuthenticatorLoginController.php:91-123 | no notice without a record or an expiry; a warning exactly when at most 432000 s remain, showing the truncated days |
| LoginController.ExpiredUnreachable | src/lib/Controllers/AuthenticatorLoginController.php:102-112 | "expired" is never the result; after the expiry the page warns with zero or fewer days |
| LoginController.CheckExpireTimeIntended | src/lib/Controllers/AuthenticatorLoginController.php:102-121 | "expired" exactly after the expiry; a warning exactly within five days before it, showing 0 to 5 days |
| LoginController.IntendedAgreesBeforeExpiry | src/lib/Controllers/AuthenticatorLoginController.php:102-121 | up to the expiry, the intended order and the code agree |
| LoginController.ExpiryExample | Authenticator/lib/Controllers/AuthenticatorLoginController.php:85-109 | a 30-day code enabled at 0 warns with 1 day at day 29 and with 0 days one second after expiring, where "expired" is meant |
| LoginController.Events | src/lib/Controllers/AuthenticatorLoginController.php:102-122 | at most one event per call, and none exactly when there is no notice |
| LoginController.RecoveryGraceHours | src/lib/Controllers/AuthenticatorLoginController.php:79 | the grace time shown is `RECOVERY_GRACE_TIME` in whole hours (24) |
| LegacyPlugin.Entries | Authenticator/lib/Plugin.php:163-166 | a table that is not an array holds no records |
| LegacyPlugin.Lookup | Authenticator/lib/Plugin.php:155-158 | the entry under the id when the data is an array holding it, null otherwise |
| LegacyPlugin.Put | Authenticator/lib/Plugin.php:246-251 | afterwards the id maps to the record, every other id to what it did, and the data is an array |
| LegacyPlugin.Remove | Authenticator/lib/Plugin.php:258-263 | afterwards the id is absent and every other id unchanged; removing an absent id changes nothing |
| LegacyPlugin.PutKeepsFiled | Authenticator/ActionController.php:201-211 | filing a record under its own user id keeps every record filed under its own |
| LegacyPlugin.RemoveKeepsFiled | Authenticator/ActionController.php:255-266 | removing an entry keeps every record filed under its own user id |
| LegacyPlugin.Find | Authenticator/ActionController.php:282 | a found record carries the user's id and is the entry under it |
| LegacyPlugin.FindComplete | Authenticator/ActionController.php:282 | with every record filed under its own id, the lookup misses exactly when no record carries the id |
| LegacyPlugin.AuthenticatorPlugin.Init | Authenticator/lib/Plugin.php:76-88 | the data becomes the empty array unless it already is an array, which is kept |
| LegacyPlugin.AuthenticatorPlugin.GetDataForId | Authenticator/lib/Plugin.php:155-158 | the entry under the id, or null |
| LegacyPlugin.AuthenticatorPlugin.GetData | Authenticator/lib/Plugin.php:163-166 | an id is in the array exactly when `getDataForId` finds it, with the same record |
| LegacyPlugin.AuthenticatorPlugin.SetDataForId | Authenticator/lib/Plugin.php:246-251 | the data is `Put` of the record under the id |
| LegacyPlugin.AuthenticatorPlugin.DeleteDataForId | Authenticator/lib/Plugin.php:258-263 | the data is `Remove` of the id |
| LegacyPlugin.AuthenticatorPlugin.CheckLogin | Authenticator/lib/Plugin.php:122-146 | the user's entry with 2FA on clears both flags and stores the redirect; otherwise both flags are set |
| LegacyActions.UseEffect | Authenticator/ActionController.php:171-193 | no match: false and nothing changes; a match: the first match leaves, the rest is reindexed in order, the time is stamped, the record filed; the answer is whether the store saved |
| LegacyActions.Peek | Authenticator/ActionController.php:399-403 | false for a zero count; otherwise the value under key count-1, or null; on a list with its own count, the last code |
| LegacyActions.PeekedCodeInPool | Authenticator/ActionController.php:399-400 | a peeked code is still in the pool: nothing is removed |
| LegacyActions.PickEffect | Authenticator/ActionController.php:374-404 | without regeneration nothing changes and the last code is peeked; a regeneration installs ten fresh codes, stamps the time and files the record; the code is read at the count taken before |
| LegacyActions.RegeneratedEmptyPoolGivesNothing | Authenticator/ActionController.php:378-403 | an exhausted pool that is regenerated gives false although ten codes were stored |
| LegacyActions.MailText | Authenticator/ActionController.php:359 | a null pick is mailed as the empty string |
| LegacyActions.Mail | Authenticator/ActionController.php:346-366 | without an address, false and nothing changes; with one, true exactly when a value was picked and the mail went out, which then logs it |
| LegacyActions.MailEffect | Authenticator/ActionController.php:346-366 | `Mail` after the peeking pick |
| LegacyActions.ResponseFlags | Authenticator/ActionController.php:217-227 | `returnResponseError` (and `returnResponseOk` at lines 327-338) set the flags to the outcome exactly when `$isAuth` is true |
| LegacyActions.CheckFlags | Authenticator/ActionController.php:284-319 | a wrong code leaves the flags alone; used and correct set them; not found and a sent mail clear them |
| LegacyActions.AfterRecoveryEffect | Authenticator/ActionController.php:303-319 | a reset whose mail goes out answers that; otherwise correct exactly for a non-empty pin that verifies |
| LegacyActions.CheckEffect | Authenticator/ActionController.php:288-319 | a used and saved 20-character recovery code passes with `UseEffect`'s changes; otherwise as `AfterRecoveryEffect` |
| LegacyActions.PassNeedsFactor | Authenticator/ActionController.php:288-319 | both flags become true only for a pin that verifies or is a recovery code, which is then gone from the stored pool |
| LegacyActions.SaveGateEffect | Authenticator/ActionController.php:124-127 | passes exactly when TOTP verifies or a 20-character pin is consumed and saved; the pool is touched only when TOTP failed |
| LegacyActions.GateOrderAcrossRevisions | Authenticator/ActionController.php:124-127 | the legacy and current gates accept the same non-empty pins; a pin that is both spends the recovery code only in the current revision |
| LegacyActions.EnableEffect | Authenticator/ActionController.php:134-151 | the record is switched on with ten fresh codes from now and filed; other entries stay |
| LegacyActions.SaveEffect | Authenticator/ActionController.php:115-162 | a failed gate is "wrong code"; demo stops after it; enabling always restarts the date and the pool; disabling leaves no entry for the user |
| LegacyActions.ShowRecoveryCodes | Authenticator/ActionController.php:410-435 | status 0 with the codes exactly for a non-empty pool, status 1 for an empty one |
| LegacyActions.LegacyActionController.SavePluginUserData | Authenticator/ActionController.php:201-211 | the record is put under its own user id; the answer is whether the store saved |
| LegacyActions.LegacyActionController.DeletePluginUserData | Authenticator/ActionController.php:255-266 | the id is removed; the answer is whether the store saved |
| LegacyActions.LegacyActionController.UseRecoveryCode | Authenticator/ActionController.php:171-193 | the answer and the new state are those `UseEffect` gives |
| LegacyActions.LegacyActionController.Regenerate | Authenticator/ActionController.php:380-396 | ten fresh codes installed with the time stamped and the record filed; 100 bytes drawn |
| LegacyActions.LegacyActionController.PickRecoveryCode | Authenticator/ActionController.php:374-404 | the value and the new state are those `PickEffect` gives |
| LegacyActions.LegacyActionController.SendResetEmail | Authenticator/ActionController.php:346-366 | the answer and the new state are those `MailEffect` gives |
| LegacyActions.LegacyActionController.Respond | Authenticator/ActionController.php:327-338 | the flags take the outcome when `$isAuth` is true and are left otherwise |
| LegacyActions.LegacyActionController.AnswerAfterRecovery | Authenticator/ActionController.php:303-319 | the answer and state are `AfterRecoveryEffect`'s, with the flags `CheckFlags` gives |
| LegacyActions.LegacyActionController.CheckCodeFor | Authenticator/ActionController.php:288-319 | the answer and state are `CheckEffect`'s, with the flags `CheckFlags` gives |
| LegacyActions.LegacyActionController.CheckCode | Authenticator/ActionController.php:274-320 | no record for the user clears both flags and answers "not found" without other change; otherwise as `CheckEffect` |
| LegacyActions.LegacyActionController.SaveGate | Authenticator/ActionController.php:124-127 | the answer and state are `SaveGateEffect`'s |
| LegacyActions.LegacyActionController.EnableFor | Authenticator/ActionController.php:134-151 | the state is `EnableEffect`'s |
| LegacyActions.LegacyActionController.Save | Authenticator/ActionController.php:115-162 | the answer and state are `SaveEffect`'s; the flags are untouched |
| OldActions.OldUseEffect | Authenticator/ActionController.class.php:276-292 | no match: false and nothing changes; a match unsets key 1 whatever matched, without reindexing, turns 2FA off, stamps the time and files the record |
| OldActions.UnsetKeepsOthers | Authenticator/ActionController.class.php:282 | `unset` keeps the value of every entry under another key |
| OldActions.OldReplayAccepted | Authenticator/ActionController.class.php:280-282 | a used code not under key 1 is still in the pool, and using it again succeeds |
| OldActions.OldReplayExample | Authenticator/ActionController.class.php:280-282 | using c0 of [c0, c1] leaves [c0] |
| OldActions.OldPickEffect | Authenticator/ActionController.class.php:342-370 | only a record that never issued a code regenerates; any other peeks at its pool as it is, and an exhausted pool gives false |
| OldActions.OldMailEffect | Authenticator/ActionController.class.php:314-334 | `Mail` after this revision's pick |
| OldActions.OldCheckFlags | Authenticator/ActionController.class.php:226-266 | a missing record and a wrong code leave the flags alone, unlike the legacy revision for a missing record; used and correct set them |
| OldActions.OldAfterRecoveryEffect | Authenticator/ActionController.class.php:248-266 | a reset whose mail goes out answers that; otherwise correct exactly for a non-empty pin that verifies |
| OldActions.OldCheckEffect | Authenticator/ActionController.class.php:230-266 | a used and saved recovery code passes and leaves the record filed with 2FA off; otherwise as `OldAfterRecoveryEffect` |
| OldActions.OldSaveGate | Authenticator/ActionController.class.php:119-121 | passes only when TOTP verifies, and for a 20-character pin only when it is also consumed and saved |
| OldActions.RecoveryCodeAloneRejected | Authenticator/ActionController.class.php:119-121 | a recovery code whose TOTP check fails is refused here and accepted by the legacy gate |
| OldActions.OldSaveEffect | Authenticator/ActionController.class.php:110-155 | a failed gate is "wrong code"; demo stops after it; enabling files the fresh record under the user id and changes no other entry; disabling deletes the entry and then files the record again under its own user id |
| OldActions.OldDisableKeepsSecondFactor | Authenticator/ActionController.class.php:143-149 | disabling leaves an entry with 2FA on, so login still demands the second factor; the legacy save leaves none |
| OldActions.OldShowRecoveryCodes | Authenticator/ActionController.class.php:375-383 | status 0 with the pool even when it is empty, where the legacy revision answers status 1 |
| OldActions.OldActionController.SavePluginUserData | Authenticator/ActionController.class.php:198-208 | the record is put under its own user id; the answer is whether the store saved |
| OldActions.OldActionController.UseRecoveryCode | Authenticator/ActionController.class.php:276-292 | the answer and the new state are those `OldUseEffect` gives |
| OldActions.OldActionController.Regenerate | Authenticator/ActionController.class.php:344-358 | ten fresh codes installed with the time stamped and the record filed; 100 bytes drawn |
| OldActions.OldActionController.PickRecoveryCode | Authenticator/ActionController.class.php:342-370 | the value and the new state are those `OldPickEffect` gives |
| OldActions.OldActionController.SendResetEmail | Authenticator/ActionController.class.php:314-334 | the answer and the new state are those `OldMailEffect` gives |
| OldActions.OldActionController.AuthResponseOk | Authenticator/ActionController.class.php:297-306 | both flags set |
| OldActions.OldActionController.AuthResponseError | Authenticator/ActionController.class.php:161-171 | both flags cleared exactly when `$isAuth` is true, left otherwise |
| OldActions.OldActionController.AnswerAfterRecovery | Authenticator/ActionController.class.php:248-266 | the answer and state are `OldAfterRecoveryEffect`'s, with the flags `OldCheckFlags` gives |
| OldActions.OldActionController.CheckCodeFor | Authenticator/ActionController.class.php:230-266 | the answer and state are `OldCheckEffect`'s, with the flags `OldCheckFlags` gives |
| OldActions.OldActionController.CheckCode | Authenticator/ActionController.class.php:216-267 | no record for the user answers "not found" with the flags and state untouched; otherwise as `OldCheckEffect` |
| OldActions.OldActionController.SaveGate | Authenticator/ActionController.class.php:119-121 | the answer and state are `OldSaveGate`'s |
| OldActions.OldActionController.EnableFor | Authenticator/ActionController.class.php:129-142 | the state is `EnableEffect`'s |
| OldActions.OldActionController.Save | Authenticator/ActionController.class.php:110-155 | the answer and state are `OldSaveEffect`'s; the flags are untouched |

## Left out

- The TOTP computation (RFC 6238 over RFC 4226 in `Google2FA` and the legacy `Authenticator` class) is not part of this model. It is an uninterpreted function, and so is `base32_decode` of the secret inside `checkUserToken`.
- `PasswordUtil::generateRandomBytes` and `Util::generateRandomBytes` are not part of this model. They are taken to return n random bytes as 2n hexadecimal characters. Under that reading, the secret's "first ten input bytes" are the hex text of the first five random bytes.
- `EnvironmentIsBrokenException` from the random source is not modelled; the random source always delivers. In the source it has a different effect in each revision:
  - current: `generateRecoveryCodes` lets it escape. It reaches the controller's catch, which answers "Error al enviar correo" when it happens in `sendResetEmail` (src/lib/Controllers/AuthenticatorController.php:348-353) and "Error interno" when it happens in `save2FAStatus` (:123-132).
  - legacy: `pickRecoveryCode` returns false (Authenticator/ActionController.php:385-388), and enabling leaves the old pool in place.
  - oldest: `pickRecoveryCode` returns false.
- Base32 is written out for the encoder's configuration only (`Base2n` is not part of this model). Decoding is not modelled.
- QR codes, version checks, `getUserQRUrl`, `PreferencesController`, `PluginContext`, `UpgradeService` (beyond the version dispatch), the `plugin.js` files and `base.php` are left out. They are presentation, network I/O or foreign libraries.
- Events, notices and translated messages are left out. The expiry notice is modelled as a value with its event tag (`LoginController.Events`); other events are not.
- `TrackService` is a counter of failed attempts. The tracking limit in `saveAction` is a boolean input (`overLimit`).
- Services.AuthenticatorService.SavePluginUserData, Services.AuthenticatorService.DeletePluginUserData: the current revision's `Plugin::saveData()` (src/lib/Services/AuthenticatorService.php:250, 286) is taken to succeed, and so is `AuthenticatorService::verifyKey` (:89-92), which may throw. In the source, an exception from either reaches the controller's catch, which answers "Error interno" (src/lib/Controllers/AuthenticatorController.php:123-132 for `saveAction`, :310-316 for `checkCodeAction`), sets no flag and tracks nothing. The model answers as if the write succeeded or the key was checked: for example, a valid recovery code whose consumption fails to save is answered "correct" by `Controller.AuthenticatorController.CheckCodeFor`, with both flags set.
- `MailService::send`, `Email::sendEmail` and `PluginDataStore::save` are booleans saying whether they succeed. A store failure in the legacy revisions only changes the answer; the in-memory array is still updated, as in the source.
- The store keeps value snapshots of records, not object handles, so aliasing between the loaded object and the stored one is not modelled. Every path in the source writes the object back before the request ends.
- `ArrayUtil::searchInObject` is not part of this model. It is read as "the object whose `userId` equals the id, or null", in two shapes:
  - in the current revision, `getData()` returns one `AuthenticatorData` (src/lib/Plugin.php:130-136), which `checkCodeAction` passes to `searchInObject` (src/lib/Controllers/AuthenticatorController.php:253-257). `Controller.Found` takes that object exactly when its `userId` matches, and gives null otherwise;
  - in the legacy revisions, `getData()` is the array of records keyed by user id. `LegacyPlugin.Find` is the lookup under the id that also checks the record's user id. `LegacyPlugin.FindComplete` shows this agrees with a search over all records while every record is filed under its own id, which `PutKeepsFiled` and `RemoveKeepsFiled` preserve.
- `Json::returnJson` ends the request. Each answer is modelled as the end of the action, so the code after it is unreachable in the model as in the source.
- Loose `array_search` in the oldest `useRecoveryCode` is modelled as string equality. Numeric-string comparisons are not modelled.
- The legacy revisions' `AuthenticatorData` and `Session` classes are not part of this model. They are taken to behave as the current record class and as session flags.
- Plugin.Upgrade: PHP's loose comparison is modelled for plain decimal strings (digits with at most one '.'). A sign, surrounding whitespace, an exponent ("3.1019012201e2") and the rounding of both sides to double precision are not modelled, so a version such as " 310.19012201" or "3.1019012201e2", which the source migrates, is not migrated in the model.
- LoginController.CheckExpireTime: reads the clock once. The source calls `time()` again for the "expired" test, which could only differ if five days passed between the two calls.
- Controller.AuthenticatorController.CheckCodeAction: the deep-link URL returned on success is not modelled.

## Findings

| source | as written | input that shows it | evidently intended | confidence | as-written member | corrected member |
|---|---|---|---|---|---|---|
| Authenticator/ActionController.class.php:280-282 | `$key = array_search(...) !== false` assigns the comparison, so `unset($codes[$key])` unsets key 1 | pool [c0, c1], use c0: c1 is removed, c0 stays and can be used again | remove the matching entry, so a used code cannot be replayed | high, not executed | OldActions.OldReplayExample | RecoveryCodes.ConsumeReplayRejected |
| Authenticator/ActionController.class.php:119-121 | the save gate demands TOTP and, for a 20-character pin, a recovery code as well | a valid recovery code whose TOTP check fails is refused | TOTP or a recovery code, as the legacy revision has it | medium, not executed | OldActions.RecoveryCodeAloneRejected | LegacyActions.SaveGateEffect |
| Authenticator/ActionController.class.php:143-149 | disabling deletes the entry, then `savePluginUserData` writes the same record back | a user with 2FA on saves with 2FA off: the entry stays, 2FA on | disabling removes the entry | high, not executed | OldActions.OldDisableKeepsSecondFactor | LegacyActions.SaveEffect |
| Authenticator/ActionController.php:378-403 | the count is taken before the pool is regenerated | empty pool, grace time over: ten codes are stored but false is returned, so no mail is sent | hand out a code from the regenerated pool | high, not executed | LegacyActions.RegeneratedEmptyPoolGivesNothing | Services.Pick |
| src/lib/Controllers/AuthenticatorLoginController.php:102-112 | the warning test comes first and also holds for negative time remaining | a 30-day code enabled at 0, one second after day 30: "0 days left" instead of "expired" | report expiry once it has passed | high, not executed | LoginController.ExpiryExample | LoginController.CheckExpireTimeIntended |
