# Concert booking service: request decisions, client session, user DTO

This project models the decision logic of a concert ticket booking system
and proves properties of that model in Dafny. The system is a REST service
with a thin Java client. The model covers three parts:

- **The service resource** (`ConcertService`, class `ConcertResource`).
  It models user registration, login and seat reservation over an abstract
  store. The store holds users keyed by username, at most one
  authentication token per user, the scheduled concerts, reservations and
  bookings. The model covers:
  - the 422 checks for missing fields;
  - the login ladder 422 / 404 / 401 / 200;
  - the reuse-or-refresh rule for tokens, with its five-minute window in
    truncated whole minutes;
  - the set of unavailable seats handed to the seat allocator: the seats of
    booked reservations, plus the seats of reservations that expire after
    "now", both for the requested concert and date;
  - the new reservation, which expires five minutes after "now".
- **The client** (`ConcertClient`, class `DefaultService`). It models how
  each call maps the reply's HTTP status to an error message, and which
  calls update the stored token, username and password.
- **The user DTO** (`UserDtos`). It models the constructors, `equals`
  (on a heap of objects with identities) and `hashCode`. The hash code is
  computed in wrapping 32-bit arithmetic, as Java's `String.hashCode` and
  Commons Lang's `HashCodeBuilder(17, 31)` do (`JavaLang`).

`ClientServer` puts the two sides together. It proves which message the
client reports for each status the service can send. It also proves that
after a successful login the client holds exactly the token the service
stores for that user.

Time is an integer number of **seconds**, not minutes. This keeps the
truncation of `ChronoUnit.MINUTES.between` visible. Because of it, a token
is reused until it is 5 minutes 59 seconds old (`TokenExpired`). The
clock, the UUID token generator and the seat allocator are parameters of
the handlers: `now`, `newToken` and `allocate`. Nothing is assumed about
the allocator.

Where the code does less than the system's description suggests, the
model follows the code, with one exception (the user lookup, under
"## Left out"):
- the reservation endpoint never reads the Authorization header;
- it never answers 401, 403, 404 or 409, so on the client the only
  reservation error the service can cause is missing fields
  (`ClientServer.ReservationErrors`);
- a reservation whose concert id matches no concert is stored with no
  concert, and it then blocks no seats (`OtherPerformanceUnaffected`);
- concurrent requests are not serialised.

## Model

| member | source | states |
|---|---|---|
| `JavaLang.Int32` | softeng325-concert-common/src/main/java/nz/ac/auckland/concert/common/dto/UserDTO.java:80-87 | the wrapped value is a 32-bit int congruent to the input modulo 2^32 |
| `JavaLang.Int32Step` | softeng325-concert-common/src/main/java/nz/ac/auckland/concert/common/dto/UserDTO.java:80-87 | wrapping before or after a multiply-add step of the hash gives the same int |
| `JavaLang.StringHashCode` | softeng325-concert-common/src/main/java/nz/ac/auckland/concert/common/dto/UserDTO.java:82-85 | a string's hash is a 32-bit int, 0 for the empty string |
| `JavaLang.EqualsAppend` | softeng325-concert-common/src/main/java/nz/ac/auckland/concert/common/dto/UserDTO.java:71-76 | one EqualsBuilder step stays equal iff it was equal and the two fields are equal, with null equal only to null |
| `JavaLang.FieldHash` | softeng325-concert-common/src/main/java/nz/ac/auckland/concert/common/dto/UserDTO.java:80-87 | a field contributes a 32-bit hash, 0 when null |
| `JavaLang.HashAppend` | softeng325-concert-common/src/main/java/nz/ac/auckland/concert/common/dto/UserDTO.java:80-87 | one HashCodeBuilder step yields a 32-bit int |
| `UserDtos.EmptyUserDto` | softeng325-concert-common/src/main/java/nz/ac/auckland/concert/common/dto/UserDTO.java:34 | the no-argument constructor leaves all four fields null |
| `UserDtos.NewUserDto` | softeng325-concert-common/src/main/java/nz/ac/auckland/concert/common/dto/UserDTO.java:36-61 | the four-argument constructor stores username, password, lastname, firstname in that order, and the getters return them |
| `UserDtos.NewCredentialsDto` | softeng325-concert-common/src/main/java/nz/ac/auckland/concert/common/dto/UserDTO.java:43-45 | the two-argument constructor stores username and password and leaves both names null |
| `UserDtos.Equals` | softeng325-concert-common/src/main/java/nz/ac/auckland/concert/common/dto/UserDTO.java:64-77 | false for null and non-DTO objects, true for the same object, otherwise true iff the four fields are equal |
| `UserDtos.EqualsIffSameFields` | softeng325-concert-common/src/main/java/nz/ac/auckland/concert/common/dto/UserDTO.java:64-76 | on a coherent heap, equals holds iff the other object is a user DTO with the same fields |
| `UserDtos.EqualsReflexive` | softeng325-concert-common/src/main/java/nz/ac/auckland/concert/common/dto/UserDTO.java:67-68 | every user DTO equals itself |
| `UserDtos.EqualsSymmetric` | softeng325-concert-common/src/main/java/nz/ac/auckland/concert/common/dto/UserDTO.java:64-76 | equals is symmetric |
| `UserDtos.EqualsTransitive` | softeng325-concert-common/src/main/java/nz/ac/auckland/concert/common/dto/UserDTO.java:64-76 | equals is transitive |
| `UserDtos.HashCode` | softeng325-concert-common/src/main/java/nz/ac/auckland/concert/common/dto/UserDTO.java:80-87 | the hash code is a 32-bit int |
| `UserDtos.HashCodePolynomial` | softeng325-concert-common/src/main/java/nz/ac/auckland/concert/common/dto/UserDTO.java:80-87 | the hash is 17·31^4 + h(username)·31^3 + h(password)·(31^2 + 1) + h(firstname)·31, wrapped: lastname never counts and password counts twice |
| `UserDtos.EqualsImpliesEqualHashCodes` | softeng325-concert-common/src/main/java/nz/ac/auckland/concert/common/dto/UserDTO.java:64-87 | equal DTOs have equal hash codes |
| `UserDtos.HashCodeIgnoresLastname` | softeng325-concert-common/src/main/java/nz/ac/auckland/concert/common/dto/UserDTO.java:80-87 | DTOs that differ only in lastname hash alike |
| `UserDtos.DifferentLastnamesCollide` | softeng325-concert-common/src/main/java/nz/ac/auckland/concert/common/dto/UserDTO.java:64-87 | two DTOs that differ only in lastname are unequal yet have the same hash |
| `ConcertService.ToDomain` | softeng325-concert-service/src/main/java/nz/ac/auckland/concert/service/services/ConcertResource.java:116 | the stored user keeps the DTO's username and password |
| `ConcertService.ToDto` | softeng325-concert-service/src/main/java/nz/ac/auckland/concert/service/services/ConcertResource.java:126 | the DTO of a stored user has all four fields |
| `ConcertService.UserMappingRoundTrip` | softeng325-concert-service/src/main/java/nz/ac/auckland/concert/service/services/ConcertResource.java:116-126 | the DTO made from the stored user is the submitted DTO |
| `ConcertService.CreateUserStatus` | softeng325-concert-service/src/main/java/nz/ac/auckland/concert/service/services/ConcertResource.java:104-138 | 422 iff a field is missing, else 409 iff the username is taken, else 200 |
| `ConcertService.LoginStatus` | softeng325-concert-service/src/main/java/nz/ac/auckland/concert/service/services/ConcertResource.java:146-158 | 422 iff username or password is missing, else 404 iff no such user, else 401 iff the password differs, else 200 |
| `ConcertService.ReserveStatus` | softeng325-concert-service/src/main/java/nz/ac/auckland/concert/service/services/ConcertResource.java:204-206 | 422 iff concert id, date or seat type is missing or the seat count is 0, else 200 |
| `ConcertService.MinutesBetween` | softeng325-concert-service/src/main/java/nz/ac/auckland/concert/service/services/ConcertResource.java:166 | whole minutes between two times, truncated toward zero in both directions |
| `ConcertService.TokenExpired` | softeng325-concert-service/src/main/java/nz/ac/auckland/concert/service/services/ConcertResource.java:165-166 | a token is refreshed iff it is at least six minutes old (more than five truncated whole minutes); clock readings before its timestamp count as young |
| `ConcertService.BookedSeats` | softeng325-concert-service/src/main/java/nz/ac/auckland/concert/service/services/ConcertResource.java:218-224 | the booking query: it holds every seat of every booked reservation for the concert and date, and no other seat |
| `ConcertService.LiveReservedSeats` | softeng325-concert-service/src/main/java/nz/ac/auckland/concert/service/services/ConcertResource.java:227-231 | the reservation query: it holds every seat of every reservation for the concert and date that expires strictly after now, and no other seat |
| `ConcertService.UnavailableSeats` | softeng325-concert-service/src/main/java/nz/ac/auckland/concert/service/services/ConcertResource.java:218-237 | the set handed to the allocator: a seat is in it iff some reservation for the concert and date holds it and is booked or expires after now |
| `ConcertService.ExpiredReservationsNeverBlock` | softeng325-concert-service/src/main/java/nz/ac/auckland/concert/service/services/ConcertResource.java:227-234 | a seat held only by unbooked, expired reservations is not unavailable |
| `ConcertService.UnavailableShrinksOverTime` | softeng325-concert-service/src/main/java/nz/ac/auckland/concert/service/services/ConcertResource.java:227-231 | the unavailable set at a later time is a subset of the one at an earlier time |
| `ConcertService.NewReservationBlocksUntilExpiry` | softeng325-concert-service/src/main/java/nz/ac/auckland/concert/service/services/ConcertResource.java:240-246 | a stored reservation makes its seats unavailable for its concert and date until its expiry |
| `ConcertService.OtherPerformanceUnaffected` | softeng325-concert-service/src/main/java/nz/ac/auckland/concert/service/services/ConcertResource.java:218-231 | a new reservation for another concert or date, or for no concert, leaves the unavailable set unchanged |
| `ConcertService.NextReservationUnbooked` | softeng325-concert-service/src/main/java/nz/ac/auckland/concert/service/services/ConcertResource.java:218 | in a consistent store, where every booking joins to a stored reservation, no booking refers to the next reservation id |
| `ConcertService.ConcertResource.constructor` | softeng325-concert-service/src/main/java/nz/ac/auckland/concert/service/services/ConcertResource.java:35-39 | the resource attaches to the store it is given, which must be consistent (Valid()) |
| `ConcertService.ConcertResource.CreateUser` | softeng325-concert-service/src/main/java/nz/ac/auckland/concert/service/services/ConcertResource.java:104-138 | 422 and 409 echo the DTO and change nothing; otherwise the store gains the user and a token for it timestamped now, and that token is in the Authorization header |
| `ConcertService.ConcertResource.AuthenticateUser` | softeng325-concert-service/src/main/java/nz/ac/auckland/concert/service/services/ConcertResource.java:144-193 | errors change nothing; on success a token at most five whole minutes old is returned with the store unchanged, otherwise the user's token is replaced by one issued now and that one is returned |
| `ConcertService.ConcertResource.UnavailableSeatsAt` | softeng325-concert-service/src/main/java/nz/ac/auckland/concert/service/services/ConcertResource.java:214-234 | the seats collected equal the booked seats plus the seats of live reservations, for the concert and date |
| `ConcertService.ConcertResource.ReserveSeats` | softeng325-concert-service/src/main/java/nz/ac/auckland/concert/service/services/ConcertResource.java:202-263 | 422 changes nothing; otherwise exactly one reservation is added under a new, unbooked id, with the allocated seats, the concert (if found), the date and expiry now + 5 minutes, and the returned reservation carries that id and those seats |
| `ConcertClient.ReadEntity` | softeng325-concert-client/src/main/java/nz/ac/auckland/concert/client/service/DefaultService.java:88 | an unreadable body becomes a communication error, a readable one is returned |
| `ConcertClient.CreateUserError` | softeng325-concert-client/src/main/java/nz/ac/auckland/concert/client/service/DefaultService.java:78-81 | 409 and 422 map to the non-unique-name and missing-fields messages, every other status to none |
| `ConcertClient.AuthenticateError` | softeng325-concert-client/src/main/java/nz/ac/auckland/concert/client/service/DefaultService.java:101-105 | 401, 404 and 422 map to the illegal-password, non-existent-user and missing-fields messages, every other status to none |
| `ConcertClient.ReserveError` | softeng325-concert-client/src/main/java/nz/ac/auckland/concert/client/service/DefaultService.java:155-161 | 401, 403, 404, 409 and 422 map to their five messages, every other status to none |
| `ConcertClient.RegisterCreditCardError` | softeng325-concert-client/src/main/java/nz/ac/auckland/concert/client/service/DefaultService.java:186-189 | 401 and 403 map to bad-token and unauthenticated, every other status to none |
| `ConcertClient.DefaultService.constructor` | softeng325-concert-client/src/main/java/nz/ac/auckland/concert/client/service/DefaultService.java:36-46 | a new client has no token, username or password |
| `ConcertClient.DefaultService.CreateUser` | softeng325-concert-client/src/main/java/nz/ac/auckland/concert/client/service/DefaultService.java:72-92 | transport failure, 409 and 422 throw and leave the session; otherwise the session takes the header token and the submitted credentials before the body is read |
| `ConcertClient.DefaultService.AuthenticateUser` | softeng325-concert-client/src/main/java/nz/ac/auckland/concert/client/service/DefaultService.java:95-116 | transport failure, 401, 404 and 422 throw and leave the session; otherwise the session takes the header token and the submitted credentials before the body is read |
| `ConcertClient.DefaultService.ReserveSeats` | softeng325-concert-client/src/main/java/nz/ac/auckland/concert/client/service/DefaultService.java:145-168 | the stored token is sent; transport failure and the five statuses throw their messages; otherwise the reservation is read; the session is not changed |
| `ConcertClient.DefaultService.RegisterCreditCard` | softeng325-concert-client/src/main/java/nz/ac/auckland/concert/client/service/DefaultService.java:176-193 | the stored token is sent; transport failure, 401 and 403 throw; every other status completes |
| `ClientServer.UserReply` | softeng325-concert-client/src/main/java/nz/ac/auckland/concert/client/service/DefaultService.java:75-76 | the client sees the service's status and Authorization header |
| `ClientServer.ReservationReply` | softeng325-concert-client/src/main/java/nz/ac/auckland/concert/client/service/DefaultService.java:148-153 | the client sees the service's status and header for a reservation |
| `ClientServer.RegistrationErrors` | softeng325-concert-client/src/main/java/nz/ac/auckland/concert/client/service/DefaultService.java:78-81 | the client reports missing fields, then a taken username, exactly when the service refuses for that reason |
| `ClientServer.LoginErrors` | softeng325-concert-client/src/main/java/nz/ac/auckland/concert/client/service/DefaultService.java:101-105 | the client reports missing fields, unknown user and wrong password exactly when the service refuses for that reason |
| `ClientServer.ReservationErrors` | softeng325-concert-client/src/main/java/nz/ac/auckland/concert/client/service/DefaultService.java:155-161 | against this service the only reservation error is missing fields |
| `ClientServer.Login` | softeng325-concert-client/src/main/java/nz/ac/auckland/concert/client/service/DefaultService.java:95-116 | after a successful login the client's token is the one the service stores for the user |
| `ClientServer.Register` | softeng325-concert-client/src/main/java/nz/ac/auckland/concert/client/service/DefaultService.java:72-92 | after a successful registration the client holds the new token and gets the submitted user back |
| `ClientServer.Reserve` | softeng325-concert-client/src/main/java/nz/ac/auckland/concert/client/service/DefaultService.java:145-168 | a complete request returns the reservation the service stored, with the same seats |

## Left out

- Persistence: the entity manager, transactions, `flush` and JPQL are not modelled. The two queries are set comprehensions over the store. The rollback on a duplicate username is a "username already present" check.
- User key: the model gives the evidently intended lookup by username, not the code as written. `User.java` declares the primary key as a generated `long` id. `em.find(User.class, username)` passes a string key, and the JPA contract of `EntityManager.find` makes that an `IllegalArgumentException`. As written, every login that passes the 422 check would fail there with a server error. Registration would commit the user and the token, then fail at the lookup after the commit, so no token reaches the client.
- Duplicate usernames: `User.java` puts no unique constraint on the username column, so a 409 cannot come from the users table. It could only come from the Token entity's key, and the Token entity is not part of this model. The model's 409 is the intended "username already present" check.
- Token removal: the code calls `em.remove(token)` outside the transaction that persists the new token. The model treats the removal and the insertion as one replacement.
- Mappers and allocator: `UserMapper`, `SeatMapper` and `TheatreUtility.findAvailableSeats` are not part of this model. The mappers are taken as field-for-field copies. The allocator is an arbitrary function parameter. No claim is made that it avoids the unavailable seats or returns the requested number.
- Seat and price band: `SeatDTO` and `PriceBand` are not part of this model. A seat is a row and a number; a price band is its ordinal.
- Clock and tokens: the clock is the `now` parameter, counted in seconds rather than at Java's nanosecond precision. UUID generation is the `newToken` parameter; the model does not require it to be unique.
- Strings: Dafny characters are Unicode scalar values, not UTF-16 code units, so `StringHashCode` agrees with Java's `String.hashCode` only on strings whose characters lie in the Basic Multilingual Plane.
- Other endpoints: `getConcerts`, `getPerformers`, `confirmReservation` (empty) and `getBookings` (returns null) are not modelled. Neither are the client's versions of them or `getImageForPerformer` (S3 and image decoding).
- The client's extended service and the HTTP transport: `ExtendedService` only wraps HTTP calls. XML marshalling and routing are not modelled either. A transport failure is the `TransportFailure` reply, and an unreadable body is an absent entity.
- Concurrency: the code has no locking, and the model handles one request at a time.
