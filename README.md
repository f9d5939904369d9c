# Parental control service, modelled in Dafny

The service answers one question: may a customer whose parental control
level is given watch a movie? The movie's own level comes from an external
movie service. Control levels form a closed, ordered enumeration,
U < PG < A12 < A15 < A18. A level name is valid only when it matches one of
these names exactly, with the same letter case. `canWatchMovie` does four
things in this order:

1. It checks the customer's level.
2. It asks the movie service for the movie's level.
3. It checks the level it got back.
4. It allows the movie when the movie's ordinal is at most the customer's.

Either check failing throws a technical failure. Whatever the movie service
throws passes through unchanged.

The project has three modules:

- `Wrappers` (`wrappers.dfy`): `Option` (a Java reference that may be null)
  and `Result` (a call that returns or throws).
- `Ratings` (`ratings.dfy`): the enumeration `Level`, its declaration order
  `Declared`, `Ordinal`, `Name`, and `ValueOf`, which is `Enum.valueOf` with
  Java's two exceptions. It also holds the two helpers of `Utils`:
  `ExistsControlLevel` and `LevelMatch`.
- `ParentalControl` (`parental_control.dfy`): the failures a caller can see,
  the movie service as a class holding one lookup function, and the class
  `ParentalControlService`. `Verdict` is the decision written level by
  level. The method `CanWatchMovie` keeps the shape of the Java method: it
  calls `ExistsControlLevel` twice and then `LevelMatch`. Its postcondition
  proves it equal to `Verdict`, and the lemmas state what `Verdict`
  guarantees.

A Java `String` is `Option<string>`, where `None` is null. The movie
service's answer for an identifier is `Returned(level)` or `Raised(failure)`.
A failure is `TechnicalFailure`, `TitleNotFound` or `Unexpected`, the last
standing for any runtime exception. Each carries its message, `None` when it
has none.

The code throws `TechnicalFailureException` for an invalid level
(ParentalControlServiceImpl.java:26 and :34). That is the same type the movie
service uses for its own technical failures. The service's own exception is
built without a message, so the model writes it `OwnFailure`, which is
`TechnicalFailure(None)`. A failure from the movie service is passed on with
its message intact.

The enumeration's source file is not part of this model. The order
U < PG < A12 < A15 < A18 is therefore an assumption. It agrees with every
assertion in the tests, but the tests do not fix it completely: they order
U < A12 < A15 < A18 and PG < A15, and say nothing about where PG sits
relative to U and A12.

## Model

| member | source | states |
|---|---|---|
| `Ratings.Name` | src/main/java/com/bskyb/internettv/utils/Utils.java:29 | a constant's name is the directory key under which valueOf finds that constant |
| `Ratings.AtMost` | src/main/java/com/bskyb/internettv/utils/Utils.java:29 | a level is at most another exactly when it is declared no later than it |
| `Ratings.Ordinal` | src/main/java/com/bskyb/internettv/utils/Utils.java:29 | a level's ordinal is its position in declaration order U, PG, A12, A15, A18 |
| `Ratings.ValueOf` | src/main/java/com/bskyb/internettv/utils/Utils.java:29 | valueOf returns the constant whose name is exactly the string; null throws the null-name error; any other string throws no-such-constant, and then no constant has that name |
| `Ratings.ExistsControlLevel` | src/main/java/com/bskyb/internettv/utils/Utils.java:18-20 | true exactly when the string is non-null and is the name of some level |
| `Ratings.LevelMatch` | src/main/java/com/bskyb/internettv/utils/Utils.java:28-30 | returns a boolean exactly when both names are valid; otherwise it throws the level's valueOf error first, then the limit's |
| `Ratings.LevelMatchOnNames` | src/main/java/com/bskyb/internettv/utils/Utils.java:28-30 | on two valid names the result is ordinal(level) <= ordinal(limit) |
| `Ratings.DeclarationOrder` | src/test/java/com/bskyb/internettv/parental_control_service/ParentalControlServiceTest.java:158-166 | five levels; ordinals strictly increase along the assumed declaration order; every level is declared, none twice |
| `Ratings.OrdinalInjective` | src/main/java/com/bskyb/internettv/utils/Utils.java:29 | two levels have the same ordinal if and only if they are equal |
| `Ratings.AtMostTotalOrder` | src/main/java/com/bskyb/internettv/utils/Utils.java:29 | comparing ordinals is reflexive, antisymmetric, transitive and total on levels |
| `Ratings.NameRoundTrip` | src/main/java/com/bskyb/internettv/utils/Utils.java:29 | valueOf of a constant's name gives that constant back |
| `Ratings.ValidNames` | src/main/java/com/bskyb/internettv/utils/Utils.java:18-20 | a name is valid if and only if it is non-null and one of "U", "PG", "A12", "A15", "A18" |
| `Ratings.RejectedNames` | src/test/java/com/bskyb/internettv/parental_control_service/ParentalControlServiceTest.java:48-54 | null, "", "A16", "A17" and "u" are not valid |
| `Ratings.CaseVariantsRejected` | src/test/java/com/bskyb/internettv/parental_control_service/ParentalControlServiceTest.java:210-216 | a string that differs from a valid name only in letter case is not valid |
| `Ratings.LevelMatchReflexive` | src/test/java/com/bskyb/internettv/parental_control_service/ParentalControlServiceTest.java:120-126 | every valid name matches itself |
| `Ratings.LevelMatchTotal` | src/main/java/com/bskyb/internettv/utils/Utils.java:29 | for two valid names, at least one matches the other |
| `Ratings.LevelMatchAntisymmetric` | src/main/java/com/bskyb/internettv/utils/Utils.java:29 | two names that match each other are the same name |
| `Ratings.LevelMatchTransitive` | src/main/java/com/bskyb/internettv/utils/Utils.java:29 | levelMatch is transitive |
| `ParentalControl.MovieService.constructor` | src/main/java/com/bskyb/internettv/parental_control_service/ParentalControlServiceImpl.java:30 | the movie service answers every identifier with the answer of the lookup function it was built with |
| `ParentalControl.Verdict` | src/main/java/com/bskyb/internettv/parental_control_service/ParentalControlServiceImpl.java:23-39 | the reference decision: it returns a boolean exactly when the customer level is valid, the lookup returned, and the returned level is valid |
| `ParentalControl.ParentalControlService.constructor` | src/main/java/com/bskyb/internettv/parental_control_service/ParentalControlServiceImpl.java:20 | the new service stores the given movie service |
| `ParentalControl.ParentalControlService.Create` | src/main/java/com/bskyb/internettv/parental_control_service/ParentalControlServiceImpl.java:16-21 | a null movie service fails with a technical failure and nothing else does; otherwise a fresh service holds this movie service |
| `ParentalControl.ParentalControlService.CanWatchMovie` | src/main/java/com/bskyb/internettv/parental_control_service/ParentalControlServiceImpl.java:23-39 | the Java-shaped check gives the same decision as `Verdict` on the stored movie service; it has no modifies clause, so the stored field is unchanged |
| `ParentalControl.CustomerLevelCheckedFirst` | src/main/java/com/bskyb/internettv/parental_control_service/ParentalControlServiceImpl.java:25-30 | an invalid customer level is a technical failure, and the decision is the same for every movie service, so the lookup is not consulted |
| `ParentalControl.OnlyThisMovieConsulted` | src/main/java/com/bskyb/internettv/parental_control_service/ParentalControlServiceImpl.java:30 | the decision depends on the movie service only through its answer for the given movie identifier |
| `ParentalControl.LookupFailurePropagates` | src/main/java/com/bskyb/internettv/parental_control_service/ParentalControlServiceImpl.java:30 | with a valid customer level, whatever the movie service throws is thrown unchanged |
| `ParentalControl.MovieLevelValidated` | src/main/java/com/bskyb/internettv/parental_control_service/ParentalControlServiceImpl.java:33-35 | a returned movie level that is invalid, null included, is a technical failure |
| `ParentalControl.DecidedByOrdinals` | src/main/java/com/bskyb/internettv/parental_control_service/ParentalControlServiceImpl.java:38 | with both levels valid, the answer is ordinal(movie) <= ordinal(customer): the movie level is compared against the customer's limit |
| `ParentalControl.ErrorsAccountedFor` | src/main/java/com/bskyb/internettv/parental_control_service/ParentalControlServiceImpl.java:23-39 | every exception is either the service's own technical failure, thrown because one of the levels was invalid, or exactly what the lookup threw |
| `ParentalControl.PermittedCustomers` | src/test/java/com/bskyb/internettv/parental_control_service/ParentalControlServiceTest.java:158-166 | a customer may watch a movie at level m exactly when the customer's level is m or declared after it |
| `ParentalControl.PermissionMonotone` | src/main/java/com/bskyb/internettv/parental_control_service/ParentalControlServiceImpl.java:38 | if a customer may watch a movie, so may every customer with a limit at least as high |
| `ParentalControl.A15MovieScenario` | src/test/java/com/bskyb/internettv/parental_control_service/ParentalControlServiceTest.java:158-166 | for a movie rated A15, U, PG and A12 are refused; A15 and A18 are allowed |
| `ParentalControl.ComparisonScenarios` | src/test/java/com/bskyb/internettv/parental_control_service/ParentalControlServiceTest.java:120-150 | A12 against A12 is allowed, A15 against PG is allowed, U against A12 is refused |
| `ParentalControl.UnknownCustomerLevelScenario` | src/test/java/com/bskyb/internettv/parental_control_service/ParentalControlServiceTest.java:98-101 | customer level "A16" is a technical failure for any movie service |
| `ParentalControl.RejectionScenarios` | src/test/java/com/bskyb/internettv/parental_control_service/ParentalControlServiceTest.java:185-216 | a returned "A17" or null is a technical failure, and so is customer "u" against a movie rated "U" |

## Left out

- The movie service implementation is not part of this model. It is third-party code. The model sees it only as a pure function from a movie identifier to an answer, so a movie service that answers differently on repeated calls is not modelled.
- The exception classes of the movie service are reduced to three kinds, each with a message. A cause and a stack trace are not modelled.
- LookupFailurePropagates: states that the movie service's exception is passed on equal in kind and message. Object identity is not modelled. A lookup exception with no message therefore looks the same as the service's own `TechnicalFailure(None)`.
- `EnumUtils.isValidEnum` and `Enum.valueOf` are library calls. The model gives them their effect: a map lookup from exact names, null rejected.
- The `ControlLevelEnum` file is not part of this model. `Ratings.Declared` and `Ratings.Ordinal` assume the declaration order U < PG < A12 < A15 < A18. The tests agree with that order but do not place PG relative to U and A12. `Ratings.Name` assumes the enumeration does not override `toString()`, so a constant's string is its declared name.
- Java's checked and unchecked exception mechanics are modelled as result values, not control flow.
- Inside `canWatchMovie`, `levelMatch` could throw only on an invalid name. Both names are checked first, so the method takes the boolean directly, and the verifier proves that the failing path cannot happen.
- The `mockingFailed` test sets its mock to null only after the service was built. It never reaches the constructor's null check, so nothing beyond the constructor's own guard is derived from it.
- The JUnit and Mockito harness is used only as a source of expected behaviour. `ParentalControl.Client` restates a few of the tests as a verified caller.
