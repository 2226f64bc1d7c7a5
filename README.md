# choikini backend core: salt generation, data model and error values

This project models the self-contained logic of the choikini note-posting
backend (TypeScript, Express and MongoDB) and proves properties of it in Dafny.
It has three parts, one module per source file:

- `Authentication` (`commons.dfy`, from `backend/src/app/commons.ts`). The salt
  generator builds a string of `SALT_LENGHT` (10) characters in a counted loop.
  Each character comes from the 78-character `SALT_CHARSET` alphabet at a
  randomly chosen index. The random draw is modelled by the index it selects.
  A generated salt is then determined by its sequence of index choices, each
  a `CharIndex` (a position of the alphabet). The method `GenerateSalt` is
  proved to build exactly `SaltOf(draws)`. The lemmas show that these salts
  are exactly the strings of 10 alphabet characters, one per choice sequence.
- `DataModel` (`datamodel.dfy`, from `backend/src/app/datamodel.ts`). This covers
  the ordered `UserAccess` enumeration and the `OK`/`NG` response states. It also
  covers the record classes: `User`, `ChoikiniList`, `ChoikiniEntity`,
  `ChikiniRegistInfo`, `Hal`, `HalEmbedded`, `LoginJSON`, `ChoikiniJSON` and
  `UpsertResultJSON`. Each is a Dafny class with the source's private fields and
  a getter function per property. Each setter is a method whose `modifies`
  frame is the one field it writes, and whose `ensures` say what the getters
  then return. Each constructor states the documented defaults.
  `HalEmbedded.Conforms` states the documented rule that `Response` is `{}`
  when `State` is `NG`. The setter contracts say which calls keep that rule.
- `Errors` (`errors.dfy`, from `backend/src/app/errors.ts`). `ApplicationError`
  and `RoutingError` are the two variants of one datatype. Each holds its
  message and has a fixed name and the text form `name + "::" + message`.

The comments in `MongoDao.login` (dao.ts:137-140) describe a password check
against the salt and the generation of a token. `login`, `logoff` and
`selectUser` are stubs, so no such protocol is modelled, and neither are
access-level predicates.

`SaltCharset` is declared as the concatenation of its four runs (lower-case
letters, upper-case letters, digits, symbols). The result is the same 78
characters, in the same order, as the literal at commons.ts:91. The split lets
the verifier index into it.

## Model

| member | source | states |
|---|---|---|
| `Authentication.GenerateSalt` | backend/src/app/commons.ts:97-108 | The loop builds exactly `SaltOf(draws)` from the `SALT_LENGHT` index choices. So the result has length 10 and every character is in `SALT_CHARSET` (`InCharset`, equal to membership by `CharsetMembership`). The loop invariant says that after `i` rounds the partial salt has length `i`, lies in the alphabet and equals `SaltOf(draws[..i])`. |
| `Authentication.SaltOf` | backend/src/app/commons.ts:99-105 | The string after appending one chosen alphabet character per draw has one character per draw. Position `k` holds the alphabet character at the `k`-th chosen index. |
| `Authentication.ChosenIndex` | backend/src/app/commons.ts:103 | For a draw `r` in `[0, 1)`, `floor(r * SALT_CHARSET.length)` is a valid position of the alphabet, a `CharIndex`. The character lookup therefore never falls outside the alphabet. |
| `Authentication.CharsetShape` | backend/src/app/commons.ts:91 | The alphabet is non-empty with 78 characters. Positions 0-25 are lower-case letters, 26-51 upper-case letters and 52-61 digits. Positions 62-77 are 16 symbols that are none of those. |
| `Authentication.RunCodes` | backend/src/app/commons.ts:91 | The letter and digit runs of the alphabet are consecutive character codes from `a`, `A` and `0`. The 16 symbols are pairwise distinct and none is a letter or digit. |
| `Authentication.CharsetDistinct` | backend/src/app/commons.ts:91 | No character occurs twice in `SALT_CHARSET`. |
| `Authentication.CharsetMembership` | backend/src/app/commons.ts:91 | A character is in `SALT_CHARSET` exactly when it is a lower-case letter, an upper-case letter, a digit or one of the 16 symbols. |
| `Authentication.SaltComplete` | backend/src/app/commons.ts:101-105 | Completeness: every string of 10 alphabet characters is `SaltOf` of some sequence of 10 index choices, because positions are chosen independently. `DrawsFor` gives the choices. |
| `Authentication.SaltUnique` | backend/src/app/commons.ts:91-105 | Two choice sequences that give the same salt are equal. With `SaltComplete`, sequences of 10 choices and salts correspond one to one. |
| `DataModel.AccessOrder` | backend/src/app/datamodel.ts:19-23 | `USUAL = 0`, `HIGH = 5`, `ADMINISTRATOR = 999`, so `USUAL < HIGH < ADMINISTRATOR`. No two levels have the same value. |
| `DataModel.ResponseStates` | backend/src/app/datamodel.ts:46-49 | A response state is one of `HAL_EMBEDDED_STATE`'s values, exactly `"OK"` or `"NG"`. The empty default state is not one of them. |
| `DataModel.User.constructor` | backend/src/app/datamodel.ts:127-134 | A new `User` has `Id`, `Name`, `Password` and `Token` equal to `""` and `Auth = USUAL`. Its `Choikinis` is a new `ChoikiniList` with `Id = ""` and no entries. |
| `DataModel.User.SetId` | backend/src/app/datamodel.ts:73-74 | The `Id` getter returns the value just set, which may be undefined. Every other property is unchanged. |
| `DataModel.User.SetName` | backend/src/app/datamodel.ts:82-83 | The `Name` getter returns the value just set. Every other property is unchanged. |
| `DataModel.User.SetPassword` | backend/src/app/datamodel.ts:91-92 | The `Password` getter returns the value just set. Every other property is unchanged. |
| `DataModel.User.SetAuth` | backend/src/app/datamodel.ts:100-101 | The `Auth` getter returns the level just set. Every other property is unchanged. |
| `DataModel.User.SetToken` | backend/src/app/datamodel.ts:109-110 | The `Token` getter returns the token just set. Every other property is unchanged. |
| `DataModel.User.SetChoikinis` | backend/src/app/datamodel.ts:118-119 | The `Choikinis` getter returns the very list object just set. Every other property is unchanged, and the list objects themselves are not modified. |
| `DataModel.ChoikiniList.constructor` | backend/src/app/datamodel.ts:172-175 | A new `ChoikiniList` has `Id = ""` and an empty entry sequence. |
| `DataModel.ChoikiniList.SetId` | backend/src/app/datamodel.ts:155-156 | The `Id` getter returns the value just set. The entries are unchanged. |
| `DataModel.ChoikiniList.SetChoikinis` | backend/src/app/datamodel.ts:164-165 | Replaces the whole entry sequence with the given one. `Id` is unchanged. |
| `DataModel.ChoikiniEntity.constructor` | backend/src/app/datamodel.ts:212-214 | The constructor assigns nothing, so `EntryDate` and `Entry` start undefined. |
| `DataModel.ChoikiniEntity.SetEntryDate` | backend/src/app/datamodel.ts:195-196 | `EntryDate` returns the date just set. `Entry` is unchanged. |
| `DataModel.ChoikiniEntity.SetEntry` | backend/src/app/datamodel.ts:204-205 | `Entry` returns the text just set. `EntryDate` is unchanged. |
| `DataModel.ChikiniRegistInfo.constructor` | backend/src/app/datamodel.ts:251-254 | Holds a new default `User`, which has a new empty list, and a new `ChoikiniEntity` whose properties are undefined. |
| `DataModel.ChikiniRegistInfo.SetUser` | backend/src/app/datamodel.ts:234-235 | `User` returns the object just set. `Entry` is unchanged. |
| `DataModel.ChikiniRegistInfo.SetEntry` | backend/src/app/datamodel.ts:243-244 | `Entry` returns the object just set. `User` is unchanged. |
| `DataModel.Hal.constructor` | backend/src/app/datamodel.ts:293-296 | A new `Hal` has empty `_links` and a new `HalEmbedded` in its default state. |
| `DataModel.Hal.SetLinks` | backend/src/app/datamodel.ts:276-277 | `Links` returns the map just set. `Embedded` is unchanged. |
| `DataModel.Hal.SetEmbedded` | backend/src/app/datamodel.ts:285-286 | `Embedded` returns the object just set. `Links` is unchanged. |
| `DataModel.HalEmbedded.constructor` | backend/src/app/datamodel.ts:347-352 | A new `HalEmbedded` has `State = ""`, `StateDetail = ""` and `Response = {}`. It keeps the rule that `NG` implies an empty response, and its state is not yet `OK` or `NG`. |
| `DataModel.HalEmbedded.SetState` | backend/src/app/datamodel.ts:320-321 | `State` returns the value just set and the other properties are unchanged. A state other than `NG` keeps the documented rule (datamodel.ts:301-302). Setting `NG` keeps it exactly when `Response` is `{}`. The object is then settled exactly when the new state is `OK` or `NG` (datamodel.ts:46-49). |
| `DataModel.HalEmbedded.SetStateDetail` | backend/src/app/datamodel.ts:329-330 | `StateDetail` returns the detail just set. The other properties are unchanged, and so is whether the documented rule holds. |
| `DataModel.HalEmbedded.SetResponse` | backend/src/app/datamodel.ts:339-340 | `Response` returns the value just set and the other properties are unchanged. The documented rule (datamodel.ts:334-336) then holds exactly when the state is not `NG` or the response is `{}`. |
| `DataModel.LoginJSON.constructor` | backend/src/app/datamodel.ts:380-382 | A new `LoginJSON` has `Token = ""`. |
| `DataModel.LoginJSON.SetToken` | backend/src/app/datamodel.ts:372-373 | `Token` returns the token just set. |
| `DataModel.ChoikiniJSON.constructor` | backend/src/app/datamodel.ts:419-422 | A new `ChoikiniJSON` has `User = ""` and an empty entry list. |
| `DataModel.ChoikiniJSON.SetUser` | backend/src/app/datamodel.ts:402-403 | `User` returns the name just set. The list is unchanged. |
| `DataModel.ChoikiniJSON.SetChoikiniList` | backend/src/app/datamodel.ts:411-412 | `ChoikiniList` returns the sequence just set. `User` is unchanged. |
| `DataModel.UpsertResultJSON.constructor` | backend/src/app/datamodel.ts:450-452 | A new `UpsertResultJSON` has `IsProcessed = false`. |
| `DataModel.UpsertResultJSON.SetIsProcessed` | backend/src/app/datamodel.ts:442-443 | `IsProcessed` returns the flag just set. |
| `Errors.Names` | backend/src/app/errors.ts:7-9 | `ApplicationError`'s name is the literal `"AppricationError"`, misspelling included. `RoutingError`'s name is `"RoutingError"` (errors.ts:29-31). |
| `Errors.MessageKept` | backend/src/app/errors.ts:11-17 | For both error classes, `message` returns exactly the string given to the constructor (errors.ts:33-39 for `RoutingError`). |
| `Errors.ToStringParts` | backend/src/app/errors.ts:20-22 | `toString` is the name, then `"::"`, then the message, with nothing else (errors.ts:42-44 for `RoutingError`). |
| `Errors.ToStringInjective` | backend/src/app/errors.ts:20-44 | Two errors have the same `toString` text exactly when they are of the same class with the same message. |

## Left out

- Login, logoff, user lookup and entry registration (`MongoDao.login`, `logoff`, `selectUser`, `registChoikini`, dao.ts:124-163): the bodies are stubs. They return the input, return `false` or do nothing. Password verification and token issuance exist only as comments, so no such protocol is modelled.
- `MongoDao` construction and its singleton (dao.ts:62-73, 170-183): MongoDB connection and configuration loading.
- `loginProcedure.exec` (procedure.ts:25-28): a stub that returns an empty `Hal`.
- The key-generator script (tools/keyGenerator.ts): command-line I/O and foreign `crypto` calls. It calls `Authentication.GenerateSalt` and `Utils.GetConfig`. backend/src/app/commons.ts defines neither; its method is `generateSalt`.
- `DaoError`, which dao.ts imports from `./errors`: it is not part of this model, because errors.ts defines no such class.
- `Math.random()`: floating point. Each draw is replaced by the index it selects, a number in `[0, |SALT_CHARSET|)`. Nothing is claimed about the distribution of draws.
- ChosenIndex: uses exact real arithmetic. It does not model IEEE rounding of `Math.random() * 78`.
- Logging: the `Logger` class and the logging call in each error constructor are log4js I/O.
- Express routing and bootstrap (app/routing.ts, routing.ts, app/application.ts, application.ts) and the compiled copies under bin/.
- The type-only configuration interfaces (IConfig.ts) and the Mocha scaffolding (trial.ts, test/pure.test.ts).
- Getters: each is a function that returns its field. The setter and constructor contracts state what the getters return.
- JavaScript `Date` objects are modelled as their time value (an `int`). Entry arrays are modelled as sequences of entry objects, so two records sharing one array object is not captured.
- `_links` values are typed `any` in the source. They are modelled as text or a boolean flag, the value kinds a HAL link holds. A `StateDetail` that is an object rather than a string is modelled without its contents.
- The constructors assign their fields directly rather than through the setters as the source does. The resulting state is the same.
- `UserAccess` is a closed enumeration here. TypeScript would also let other numbers be stored in an `Auth` field.
