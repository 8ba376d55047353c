/**
 * The request-decision logic of the concert web service: user registration,
 * login with a reusable authentication token, and seat reservation, over an
 * abstract store of users, tokens, concerts, reservations and bookings.
 *
 * Time is an integer number of seconds; the service's clock reading is the
 * `now` parameter of each handler. The service's UUID token generator is the
 * `newToken` parameter, and the theatre's seat allocator is the `allocate`
 * parameter, about which nothing is assumed.
 */
module ConcertService {
  import opened Wrappers
  import opened UserDtos

  const SecondsPerMinute: int := 60
  /** How long (in whole minutes) a login token may be reused. */
  const AuthenticationTimeoutMinutes: int := 5
  /** How long (in minutes) a reservation holds its seats. */
  const ReservationTimeoutMinutes: int := 5

  const StatusOk: int := 200
  const StatusUnauthorized: int := 401
  const StatusNotFound: int := 404
  const StatusConflict: int := 409
  const StatusUnprocessable: int := 422

  /** A stored user; every field is present because registration demands it. */
  datatype User = User(username: string, password: string, firstname: string, lastname: string)

  /** The one authentication token of a user, with the time it was issued. */
  datatype Token = Token(username: string, token: string, timestamp: int)

  /** A seat of the theatre (row and number). */
  datatype Seat = Seat(row: nat, number: nat)

  /** A price band of the theatre, identified by its ordinal. */
  datatype PriceBand = PriceBand(ordinal: nat)

  /**
   * A stored reservation: its seats, the concert it is for (`None` when the
   * requested concert id matched no concert), the date and the expiry time.
   */
  datatype Reservation = Reservation(id: nat, seats: set<Seat>, concert: Option<int>, date: int, expiry: int)

  /** A confirmed booking, pointing at the reservation it confirms. */
  datatype Booking = Booking(reservation: nat)

  /** The body of a reservation request; the seat count is a primitive `int`. */
  datatype ReservationRequest = ReservationRequest(
    concertId: Option<int>, date: Option<int>, numberOfSeats: int, seatType: Option<PriceBand>)

  /** The reservation handed back to the client. */
  datatype ReservationDto = ReservationDto(id: nat, request: ReservationRequest, seats: set<Seat>)

  datatype Entity =
    | UserEntity(user: UserDto)
    | RequestEntity(request: ReservationRequest)
    | ReservationEntity(reservation: ReservationDto)

  /** An HTTP response: status, the Authorization header (if set) and the body. */
  datatype Response = Response(status: int, authorization: Option<string>, entity: Entity)

  /** The seat allocator: seat count, price band and unavailable seats to the seats it picks. */
  type Allocator = (int, PriceBand, set<Seat>) -> set<Seat>

  // ---------------------------------------------------------------------------
  // Mapping between the user DTO and the stored user

  predicate IsCompleteUserDto(dto: UserDto)
  {
    dto.username.Some? && dto.password.Some? && dto.firstname.Some? && dto.lastname.Some?
  }

  function ToDomain(dto: UserDto): (u: User)
    requires IsCompleteUserDto(dto)
    ensures Some(u.username) == dto.username && Some(u.password) == dto.password
  {
    User(dto.username.value, dto.password.value, dto.firstname.value, dto.lastname.value)
  }

  function ToDto(u: User): (dto: UserDto)
    ensures IsCompleteUserDto(dto)
  {
    NewUserDto(Some(u.username), Some(u.password), Some(u.lastname), Some(u.firstname))
  }

  /** The DTO returned after registration is the one that was submitted. */
  lemma UserMappingRoundTrip(dto: UserDto)
    requires IsCompleteUserDto(dto)
    ensures ToDto(ToDomain(dto)) == dto
  {
  }

  // ---------------------------------------------------------------------------
  // Status decisions

  /** The status of registration, given the users already stored. */
  function CreateUserStatus(users: map<string, User>, dto: UserDto): (status: int)
    ensures status == StatusUnprocessable <==> !IsCompleteUserDto(dto)
    ensures status == StatusConflict <==> IsCompleteUserDto(dto) && dto.username.value in users
    ensures status == StatusOk <==> IsCompleteUserDto(dto) && dto.username.value !in users
  {
    if dto.lastname.None? || dto.firstname.None? || dto.username.None? || dto.password.None? then
      StatusUnprocessable
    else if dto.username.value in users then
      StatusConflict
    else
      StatusOk
  }

  predicate HasCredentials(dto: UserDto)
  {
    dto.username.Some? && dto.password.Some?
  }

  /** The login ladder: missing credentials, then unknown user, then wrong password. */
  function LoginStatus(users: map<string, User>, dto: UserDto): (status: int)
    ensures status == StatusUnprocessable <==> !HasCredentials(dto)
    ensures status == StatusNotFound <==> HasCredentials(dto) && dto.username.value !in users
    ensures status == StatusUnauthorized <==>
      HasCredentials(dto) && dto.username.value in users &&
      users[dto.username.value].password != dto.password.value
    ensures status == StatusOk <==>
      HasCredentials(dto) && dto.username.value in users &&
      users[dto.username.value].password == dto.password.value
  {
    if dto.username.None? || dto.password.None? then StatusUnprocessable
    else
      var name := dto.username.value;
      if name !in users then StatusNotFound
      else if users[name].password != dto.password.value then StatusUnauthorized
      else StatusOk
  }

  predicate IsCompleteRequest(request: ReservationRequest)
  {
    request.concertId.Some? && request.date.Some? && request.numberOfSeats != 0 && request.seatType.Some?
  }

  /** The status of a reservation: only missing fields are refused; the token is never checked. */
  function ReserveStatus(request: ReservationRequest): (status: int)
    ensures status == StatusUnprocessable <==> !IsCompleteRequest(request)
    ensures status == StatusOk <==> IsCompleteRequest(request)
  {
    if request.concertId.None? || request.date.None? || request.numberOfSeats == 0 || request.seatType.None? then
      StatusUnprocessable
    else
      StatusOk
  }

  // ---------------------------------------------------------------------------
  // Time

  /**
   * Whole minutes from `from` to `to`, truncated toward zero as
   * `ChronoUnit.MINUTES.between` does (negative when `to` is earlier).
   */
  function MinutesBetween(from: int, to: int): (m: int)
    ensures from <= to ==> 0 <= m && m * SecondsPerMinute <= to - from < (m + 1) * SecondsPerMinute
    ensures to < from ==> m <= 0 && (m - 1) * SecondsPerMinute < to - from <= m * SecondsPerMinute
  {
    if from <= to then (to - from) / SecondsPerMinute
    else -((from - to) / SecondsPerMinute)
  }

  /**
   * A token is refreshed once more than five whole minutes have passed since
   * it was issued. Because the minutes are truncated, that is once it is six
   * minutes old: it is reused up to 5 minutes 59 seconds, and whenever the
   * clock reads earlier than the timestamp.
   */
  predicate TokenExpired(timestamp: int, now: int): (expired: bool)
    ensures expired <==> now - timestamp >= (AuthenticationTimeoutMinutes + 1) * SecondsPerMinute
  {
    MinutesBetween(timestamp, now) > AuthenticationTimeoutMinutes
  }

  // ---------------------------------------------------------------------------
  // Unavailable seats

  /** The reservation is for the given concert on the given date. */
  predicate ForPerformance(r: Reservation, concertId: int, date: int)
  {
    r.concert == Some(concertId) && r.date == date
  }

  predicate IsBooked(bookings: map<nat, Booking>, id: nat)
  {
    exists b :: b in bookings.Values && b.reservation == id
  }

  /** The seats of every booked reservation for the performance (the booking query). */
  function BookedSeats(reservations: map<nat, Reservation>, bookings: map<nat, Booking>,
                       concertId: int, date: int): (seats: set<Seat>)
    ensures forall id ::
              (id in reservations && IsBooked(bookings, id) && ForPerformance(reservations[id], concertId, date))
              ==> reservations[id].seats <= seats
    ensures forall s :: s in seats ==>
              exists id :: id in reservations && IsBooked(bookings, id) &&
                           ForPerformance(reservations[id], concertId, date) && s in reservations[id].seats
  {
    set id, s | id in reservations && IsBooked(bookings, id) &&
                ForPerformance(reservations[id], concertId, date) && s in reservations[id].seats :: s
  }

  /** The seats of every reservation for the performance that expires after `now` (the reservation query). */
  function LiveReservedSeats(reservations: map<nat, Reservation>, concertId: int, date: int, now: int)
    : (seats: set<Seat>)
    ensures forall id ::
              (id in reservations && ForPerformance(reservations[id], concertId, date) && reservations[id].expiry > now)
              ==> reservations[id].seats <= seats
    ensures forall s :: s in seats ==>
              exists id :: id in reservations && ForPerformance(reservations[id], concertId, date) &&
                           reservations[id].expiry > now && s in reservations[id].seats
  {
    set id, s | id in reservations && ForPerformance(reservations[id], concertId, date) &&
                reservations[id].expiry > now && s in reservations[id].seats :: s
  }

  /**
   * The seats the allocator must avoid: a seat is unavailable iff some
   * reservation for the performance holds it and is booked or still live.
   */
  function UnavailableSeats(reservations: map<nat, Reservation>, bookings: map<nat, Booking>,
                            concertId: int, date: int, now: int): (seats: set<Seat>)
    ensures forall s :: s in seats <==>
      exists id :: id in reservations && ForPerformance(reservations[id], concertId, date) &&
                   s in reservations[id].seats && (IsBooked(bookings, id) || reservations[id].expiry > now)
  {
    BookedSeats(reservations, bookings, concertId, date) + LiveReservedSeats(reservations, concertId, date, now)
  }

  /** A seat held only by unbooked reservations that have expired is available. */
  lemma ExpiredReservationsNeverBlock(reservations: map<nat, Reservation>, bookings: map<nat, Booking>,
                                      concertId: int, date: int, now: int, s: Seat)
    requires forall id :: id in reservations && ForPerformance(reservations[id], concertId, date) &&
                          s in reservations[id].seats ==>
                            !IsBooked(bookings, id) && reservations[id].expiry <= now
    ensures s !in UnavailableSeats(reservations, bookings, concertId, date, now)
  {
  }

  /** As time passes the unavailable seats can only shrink. */
  lemma UnavailableShrinksOverTime(reservations: map<nat, Reservation>, bookings: map<nat, Booking>,
                                   concertId: int, date: int, now: int, later: int)
    requires now <= later
    ensures UnavailableSeats(reservations, bookings, concertId, date, later) <=
            UnavailableSeats(reservations, bookings, concertId, date, now)
  {
  }

  /** A stored reservation blocks its seats for its performance until it expires. */
  lemma NewReservationBlocksUntilExpiry(reservations: map<nat, Reservation>, bookings: map<nat, Booking>,
                                        r: Reservation, concertId: int, date: int, now: int)
    requires ForPerformance(r, concertId, date) && now < r.expiry
    ensures r.seats <= UnavailableSeats(reservations[r.id := r], bookings, concertId, date, now)
  {
    var rs := reservations[r.id := r];
    forall s | s in r.seats
      ensures s in LiveReservedSeats(rs, concertId, date, now)
    {
      assert r.id in rs && rs[r.id] == r;
    }
  }

  /**
   * A new reservation for another performance (including one whose concert
   * was not found) leaves the unavailable seats of this one as they were.
   */
  lemma OtherPerformanceUnaffected(reservations: map<nat, Reservation>, bookings: map<nat, Booking>,
                                   r: Reservation, concertId: int, date: int, now: int)
    requires r.id !in reservations && !ForPerformance(r, concertId, date)
    ensures UnavailableSeats(reservations[r.id := r], bookings, concertId, date, now) ==
            UnavailableSeats(reservations, bookings, concertId, date, now)
  {
    var rs := reservations[r.id := r];
    forall s | s in BookedSeats(rs, bookings, concertId, date)
      ensures s in BookedSeats(reservations, bookings, concertId, date)
    {
      var id :| id in rs && IsBooked(bookings, id) && ForPerformance(rs[id], concertId, date) && s in rs[id].seats;
      assert id != r.id && rs[id] == reservations[id];
    }
    forall s | s in LiveReservedSeats(rs, concertId, date, now)
      ensures s in LiveReservedSeats(reservations, concertId, date, now)
    {
      var id :| id in rs && ForPerformance(rs[id], concertId, date) && rs[id].expiry > now && s in rs[id].seats;
      assert id != r.id && rs[id] == reservations[id];
    }
    forall s | s in BookedSeats(reservations, bookings, concertId, date)
      ensures s in BookedSeats(rs, bookings, concertId, date)
    {
      var id :| id in reservations && IsBooked(bookings, id) &&
                ForPerformance(reservations[id], concertId, date) && s in reservations[id].seats;
      assert id in rs && rs[id] == reservations[id];
    }
    forall s | s in LiveReservedSeats(reservations, concertId, date, now)
      ensures s in LiveReservedSeats(rs, concertId, date, now)
    {
      var id :| id in reservations && ForPerformance(reservations[id], concertId, date) &&
                reservations[id].expiry > now && s in reservations[id].seats;
      assert id in rs && rs[id] == reservations[id];
    }
  }

  // ---------------------------------------------------------------------------
  // The resource

  /**
   * A consistent store: users and tokens are keyed by username, each token
   * belongs to a stored user, reservations are keyed by their ids, which are
   * below the next id to be issued, and every booking refers to a stored
   * reservation.
   */
  ghost predicate ValidStore(users: map<string, User>, tokens: map<string, Token>,
                             reservations: map<nat, Reservation>, bookings: map<nat, Booking>,
                             nextReservationId: nat)
  {
    && (forall name :: name in users ==> users[name].username == name)
    && (forall name :: name in tokens ==> name in users && tokens[name].username == name)
    && (forall id :: id in reservations ==> id < nextReservationId && reservations[id].id == id)
    && (forall b :: b in bookings.Values ==> b.reservation in reservations)
  }

  /**
   * In a consistent store no booking refers to the id the next reservation
   * will get, so a new reservation holds its seats only until it expires.
   */
  lemma NextReservationUnbooked(users: map<string, User>, tokens: map<string, Token>,
                                reservations: map<nat, Reservation>, bookings: map<nat, Booking>,
                                nextReservationId: nat)
    requires ValidStore(users, tokens, reservations, bookings, nextReservationId)
    ensures nextReservationId !in reservations && !IsBooked(bookings, nextReservationId)
  {
  }

  class ConcertResource {
    /** Users keyed by username. */
    var users: map<string, User>
    /** At most one token per user, keyed by username. */
    var tokens: map<string, Token>
    /** The ids of the scheduled concerts. */
    var concerts: set<int>
    var reservations: map<nat, Reservation>
    var bookings: map<nat, Booking>
    /** The id the store gives the next reservation it persists. */
    var nextReservationId: nat

    ghost predicate Valid()
      reads this
    {
      ValidStore(users, tokens, reservations, bookings, nextReservationId)
    }

    /** The resource works on whatever store it is attached to, provided that store is consistent. */
    constructor (users: map<string, User>, tokens: map<string, Token>, concerts: set<int>,
                 reservations: map<nat, Reservation>, bookings: map<nat, Booking>, nextReservationId: nat)
      requires ValidStore(users, tokens, reservations, bookings, nextReservationId)
      ensures Valid()
      ensures this.users == users && this.tokens == tokens && this.concerts == concerts
      ensures this.reservations == reservations && this.bookings == bookings
      ensures this.nextReservationId == nextReservationId
    {
      this.users, this.tokens, this.concerts := users, tokens, concerts;
      this.reservations, this.bookings, this.nextReservationId := reservations, bookings, nextReservationId;
    }

    /**
     * Registration: 422 with the request echoed when a field is missing,
     * 409 when the username is taken (the transaction rolls back), otherwise
     * the user and a token issued `now` are stored and the token is returned
     * in the Authorization header.
     */
    method CreateUser(dto: UserDto, now: int, newToken: string) returns (res: Response)
      requires Valid()
      modifies this
      ensures Valid()
      ensures res.status == CreateUserStatus(old(users), dto)
      ensures res.status != StatusOk ==> res == Response(res.status, None, UserEntity(dto)) && unchanged(this)
      ensures res.status == StatusOk ==>
        var name := dto.username.value;
        && users == old(users)[name := ToDomain(dto)]
        && tokens == old(tokens)[name := Token(name, newToken, now)]
        && res == Response(StatusOk, Some(newToken), UserEntity(dto))
        && concerts == old(concerts) && reservations == old(reservations)
        && bookings == old(bookings) && nextReservationId == old(nextReservationId)
    {
      if dto.lastname.None? || dto.firstname.None? || dto.username.None? || dto.password.None? {
        return Response(StatusUnprocessable, None, UserEntity(dto));
      }
      var name := dto.username.value;
      if name in users {
        return Response(StatusConflict, None, UserEntity(dto));
      }
      var newUser := ToDomain(dto);
      users := users[name := newUser];
      tokens := tokens[name := Token(name, newToken, now)];
      var stored := users[name];
      UserMappingRoundTrip(dto);
      res := Response(StatusOk, Some(newToken), UserEntity(ToDto(stored)));
    }

    /**
     * Login: 422, 404 or 401 leave the store alone; on success the user's
     * token is reused if no more than five whole minutes old, and otherwise
     * replaced by a token issued `now`.
     */
    method AuthenticateUser(dto: UserDto, now: int, newToken: string) returns (res: Response)
      requires Valid()
      modifies this
      ensures Valid()
      ensures res.status == LoginStatus(old(users), dto)
      ensures res.status != StatusOk ==> res == Response(res.status, None, UserEntity(dto)) && unchanged(this)
      ensures res.status == StatusOk ==>
        var name := dto.username.value;
        && users == old(users) && concerts == old(concerts) && reservations == old(reservations)
        && bookings == old(bookings) && nextReservationId == old(nextReservationId)
        && res.entity == UserEntity(ToDto(users[name]))
        && if name in old(tokens) && !TokenExpired(old(tokens)[name].timestamp, now) then
             tokens == old(tokens) && res.authorization == Some(old(tokens)[name].token)
           else
             tokens == old(tokens)[name := Token(name, newToken, now)] && res.authorization == Some(newToken)
    {
      if dto.username.None? || dto.password.None? {
        return Response(StatusUnprocessable, None, UserEntity(dto));
      }
      var name := dto.username.value;
      if name !in users {
        return Response(StatusNotFound, None, UserEntity(dto));
      } else if users[name].password != dto.password.value {
        return Response(StatusUnauthorized, None, UserEntity(dto));
      }
      var found := users[name];
      var tokenString;
      if found.username !in tokens || TokenExpired(tokens[found.username].timestamp, now) {
        if found.username in tokens {
          tokens := tokens - {found.username};
        }
        tokenString := newToken;
        tokens := tokens[found.username := Token(found.username, tokenString, now)];
      } else {
        tokenString := tokens[found.username].token;
      }
      res := Response(StatusOk, Some(tokenString), UserEntity(ToDto(found)));
    }

    /**
     * The seats unavailable for a performance at `now`: the booked seats,
     * to which the seats of each still-live reservation are added one by one.
     */
    method UnavailableSeatsAt(concertId: int, date: int, now: int) returns (unavailable: set<Seat>)
      ensures unavailable == UnavailableSeats(reservations, bookings, concertId, date, now)
    {
      unavailable := BookedSeats(reservations, bookings, concertId, date);
      var reserved := LiveReservedSeats(reservations, concertId, date, now);
      var rest := reserved;
      while rest != {}
        invariant rest <= reserved
        invariant unavailable == BookedSeats(reservations, bookings, concertId, date) + (reserved - rest)
        decreases rest
      {
        var s :| s in rest;
        unavailable := unavailable + {s};
        rest := rest - {s};
      }
    }

    /**
     * Reservation: 422 with the request echoed when a field is missing;
     * otherwise the allocator is given the unavailable seats and the seats it
     * picks are stored as a new reservation expiring five minutes from `now`.
     * The Authorization header is not consulted.
     */
    method ReserveSeats(request: ReservationRequest, authToken: Option<string>, now: int, allocate: Allocator)
      returns (res: Response)
      requires Valid()
      modifies this
      ensures Valid()
      ensures res.status == ReserveStatus(request)
      ensures res.status != StatusOk ==> res == Response(res.status, None, RequestEntity(request)) && unchanged(this)
      ensures res.status == StatusOk ==>
        var id := old(nextReservationId);
        var concertId, date := request.concertId.value, request.date.value;
        var unavailable := UnavailableSeats(old(reservations), old(bookings), concertId, date, now);
        var seats := allocate(request.numberOfSeats, request.seatType.value, unavailable);
        var concert := if concertId in concerts then Some(concertId) else None;
        && id !in old(reservations)
        && !IsBooked(bookings, id)
        && reservations == old(reservations)[id := Reservation(id, seats, concert, date,
                                                               now + ReservationTimeoutMinutes * SecondsPerMinute)]
        && nextReservationId == id + 1
        && res == Response(StatusOk, None, ReservationEntity(ReservationDto(id, request, seats)))
        && users == old(users) && tokens == old(tokens) && concerts == old(concerts) && bookings == old(bookings)
    {
      if request.concertId.None? || request.date.None? || request.numberOfSeats == 0 || request.seatType.None? {
        return Response(StatusUnprocessable, None, RequestEntity(request));
      }
      var concertId, date := request.concertId.value, request.date.value;
      var unavailable := UnavailableSeatsAt(concertId, date, now);
      var reservedSeats := allocate(request.numberOfSeats, request.seatType.value, unavailable);
      var concert := if concertId in concerts then Some(concertId) else None;
      NextReservationUnbooked(users, tokens, reservations, bookings, nextReservationId);
      var id := nextReservationId;
      var newReservation := Reservation(id, reservedSeats, concert, date,
                                        now + ReservationTimeoutMinutes * SecondsPerMinute);
      reservations := reservations[id := newReservation];
      nextReservationId := nextReservationId + 1;
      res := Response(StatusOk, None, ReservationEntity(ReservationDto(id, request, reservedSeats)));
    }
  }
}
