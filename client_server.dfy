/**
 * Client and service together: the messages the client reports for the
 * statuses the service actually sends, and the session a client holds after
 * talking to the service.
 */
module ClientServer {
  import opened Wrappers
  import opened UserDtos
  import opened ConcertService
  import opened ConcertClient

  /** The service's user response as the client receives it. */
  function UserReply(res: Response): (reply: Reply<UserDto>)
    ensures reply.Http? && reply.status == res.status && reply.authorization == res.authorization
    ensures res.entity.UserEntity? <==> reply.entity.Some?
  {
    Http(res.status, res.authorization, if res.entity.UserEntity? then Some(res.entity.user) else None)
  }

  /** The service's reservation response as the client receives it. */
  function ReservationReply(res: Response): (reply: Reply<ReservationDto>)
    ensures reply.Http? && reply.status == res.status && reply.authorization == res.authorization
    ensures res.entity.ReservationEntity? <==> reply.entity.Some?
  {
    Http(res.status, res.authorization,
         if res.entity.ReservationEntity? then Some(res.entity.reservation) else None)
  }

  /** Registration errors the client reports, in terms of the request and the stored users. */
  lemma RegistrationErrors(users: map<string, User>, dto: UserDto)
    ensures CreateUserError(CreateUserStatus(users, dto)) ==
      if !IsCompleteUserDto(dto) then Some(CreateUserWithMissingFields)
      else if dto.username.value in users then Some(CreateUserWithNonUniqueName)
      else None
  {
  }

  /** Login errors the client reports, in the order the service checks them. */
  lemma LoginErrors(users: map<string, User>, dto: UserDto)
    ensures AuthenticateError(LoginStatus(users, dto)) ==
      if !HasCredentials(dto) then Some(AuthenticateUserWithMissingFields)
      else if dto.username.value !in users then Some(AuthenticateNonExistentUser)
      else if users[dto.username.value].password != dto.password.value then Some(AuthenticateUserWithIllegalPassword)
      else None
  {
  }

  /**
   * The service never sends 401, 403, 404 or 409 for a reservation, so the
   * only reservation error the client can report from it is missing fields.
   */
  lemma ReservationErrors(request: ReservationRequest)
    ensures ReserveError(ReserveStatus(request)) ==
      if IsCompleteRequest(request) then None else Some(ReservationRequestWithMissingFields)
  {
  }

  /**
   * Login end to end: on success the client holds exactly the token the
   * service now stores for the user, and the submitted credentials; on
   * failure it reports the service's reason and keeps its old session.
   */
  method Login(server: ConcertResource, client: DefaultService, dto: UserDto, now: int, newToken: string)
    returns (result: Outcome<UserDto>)
    requires server.Valid()
    modifies server, client
    ensures server.Valid()
    ensures LoginStatus(old(server.users), dto) == StatusOk ==>
      && dto.username.value in server.tokens
      && client.authorizationToken == Some(server.tokens[dto.username.value].token)
      && client.username == dto.username && client.password == dto.password
      && result == Returned(ToDto(server.users[dto.username.value]))
    ensures LoginStatus(old(server.users), dto) != StatusOk ==>
      && result == Thrown(AuthenticateError(LoginStatus(old(server.users), dto)).value)
      && unchanged(client) && unchanged(server)
  {
    var res := server.AuthenticateUser(dto, now, newToken);
    result := client.AuthenticateUser(dto, UserReply(res));
  }

  /**
   * Registration end to end: on success the client holds the token the
   * service stored for the new user and gets back the submitted user.
   */
  method Register(server: ConcertResource, client: DefaultService, dto: UserDto, now: int, newToken: string)
    returns (result: Outcome<UserDto>)
    requires server.Valid()
    modifies server, client
    ensures server.Valid()
    ensures CreateUserStatus(old(server.users), dto) == StatusOk ==>
      && dto.username.value in server.tokens
      && server.tokens[dto.username.value] == Token(dto.username.value, newToken, now)
      && client.authorizationToken == Some(newToken)
      && client.username == dto.username && client.password == dto.password
      && result == Returned(dto)
    ensures CreateUserStatus(old(server.users), dto) != StatusOk ==>
      && result == Thrown(CreateUserError(CreateUserStatus(old(server.users), dto)).value)
      && unchanged(client) && unchanged(server)
  {
    var res := server.CreateUser(dto, now, newToken);
    result := client.CreateUser(dto, UserReply(res));
  }

  /**
   * Reservation end to end: the client's token is sent but not checked; an
   * incomplete request is reported as such, and a complete one returns the
   * reservation the service stored.
   */
  method Reserve(server: ConcertResource, client: DefaultService, request: ReservationRequest,
                 now: int, allocate: Allocator)
    returns (result: Outcome<ReservationDto>)
    requires server.Valid()
    modifies server
    ensures server.Valid()
    ensures !IsCompleteRequest(request) ==>
      result == Thrown(ReservationRequestWithMissingFields) && unchanged(server)
    ensures IsCompleteRequest(request) ==>
      && result.Returned?
      && result.value.id in server.reservations
      && server.reservations[result.value.id].seats == result.value.seats
      && result.value.request == request
  {
    var token := client.authorizationToken;
    var res := server.ReserveSeats(request, token, now, allocate);
    var sent;
    sent, result := client.ReserveSeats(request, ReservationReply(res));
  }
}
