/**
 * The client side of the concert service: how each call turns the HTTP
 * status of the service's reply into an error message, and the session
 * credentials (token, username, password) the client keeps between calls.
 * The HTTP exchange itself is abstracted to the reply it produced.
 */
module ConcertClient {
  import opened Wrappers
  import opened UserDtos
  import ConcertService

  /** The error messages a client call can fail with. */
  datatype Message =
    | ServiceCommunicationError
    | CreateUserWithNonUniqueName
    | CreateUserWithMissingFields
    | AuthenticateUserWithIllegalPassword
    | AuthenticateNonExistentUser
    | AuthenticateUserWithMissingFields
    | BadAuthenticatonToken
    | UnauthenticatedRequest
    | ConcertNotScheduledOnReservationDate
    | InsufficientSeatsAvailableForReservation
    | ReservationRequestWithMissingFields

  /**
   * What became of a request: the transport failed before any response, or
   * a response came with a status, an Authorization header (`None` when
   * absent) and a body (`None` when it cannot be read as the expected type).
   */
  datatype Reply<E> = TransportFailure | Http(status: int, authorization: Option<string>, entity: Option<E>)

  /** A call returns a value or throws a service exception carrying a message. */
  datatype Outcome<T> = Returned(value: T) | Thrown(message: Message)

  /** Reading the body: an unreadable body is a processing failure. */
  function ReadEntity<E>(entity: Option<E>): (r: Outcome<E>)
    ensures r.Thrown? <==> entity.None?
    ensures r.Thrown? ==> r.message == ServiceCommunicationError
    ensures r.Returned? ==> r.value == entity.value
  {
    match entity
    case None => Thrown(ServiceCommunicationError)
    case Some(e) => Returned(e)
  }

  /** The statuses registration rejects. */
  function CreateUserError(status: int): (m: Option<Message>)
    ensures m.Some? <==> status in {409, 422}
    ensures m == Some(CreateUserWithNonUniqueName) <==> status == 409
    ensures m == Some(CreateUserWithMissingFields) <==> status == 422
  {
    match status
    case 409 => Some(CreateUserWithNonUniqueName)
    case 422 => Some(CreateUserWithMissingFields)
    case _ => None
  }

  /** The statuses login rejects. */
  function AuthenticateError(status: int): (m: Option<Message>)
    ensures m.Some? <==> status in {401, 404, 422}
    ensures m == Some(AuthenticateUserWithIllegalPassword) <==> status == 401
    ensures m == Some(AuthenticateNonExistentUser) <==> status == 404
    ensures m == Some(AuthenticateUserWithMissingFields) <==> status == 422
  {
    match status
    case 401 => Some(AuthenticateUserWithIllegalPassword)
    case 404 => Some(AuthenticateNonExistentUser)
    case 422 => Some(AuthenticateUserWithMissingFields)
    case _ => None
  }

  /** The statuses a reservation rejects. */
  function ReserveError(status: int): (m: Option<Message>)
    ensures m.Some? <==> status in {401, 403, 404, 409, 422}
    ensures m == Some(BadAuthenticatonToken) <==> status == 401
    ensures m == Some(UnauthenticatedRequest) <==> status == 403
    ensures m == Some(ConcertNotScheduledOnReservationDate) <==> status == 404
    ensures m == Some(InsufficientSeatsAvailableForReservation) <==> status == 409
    ensures m == Some(ReservationRequestWithMissingFields) <==> status == 422
  {
    match status
    case 401 => Some(BadAuthenticatonToken)
    case 403 => Some(UnauthenticatedRequest)
    case 404 => Some(ConcertNotScheduledOnReservationDate)
    case 409 => Some(InsufficientSeatsAvailableForReservation)
    case 422 => Some(ReservationRequestWithMissingFields)
    case _ => None
  }

  /** The statuses credit-card registration rejects. */
  function RegisterCreditCardError(status: int): (m: Option<Message>)
    ensures m.Some? <==> status in {401, 403}
    ensures m == Some(BadAuthenticatonToken) <==> status == 401
    ensures m == Some(UnauthenticatedRequest) <==> status == 403
  {
    match status
    case 401 => Some(BadAuthenticatonToken)
    case 403 => Some(UnauthenticatedRequest)
    case _ => None
  }

  class DefaultService {
    /** The token from the last successful registration or login (`None` is null). */
    var authorizationToken: Option<string>
    var username: Option<string>
    var password: Option<string>

    constructor ()
      ensures authorizationToken.None? && username.None? && password.None?
    {
      authorizationToken, username, password := None, None, None;
    }

    /**
     * Registration: a transport failure, 409 or 422 throws with the session
     * untouched; any other status stores the Authorization header and the
     * submitted credentials, and only then reads the returned user.
     */
    method CreateUser(newUser: UserDto, reply: Reply<UserDto>) returns (result: Outcome<UserDto>)
      modifies this
      ensures reply.TransportFailure? ==> result == Thrown(ServiceCommunicationError) && unchanged(this)
      ensures reply.Http? && CreateUserError(reply.status).Some? ==>
        result == Thrown(CreateUserError(reply.status).value) && unchanged(this)
      ensures reply.Http? && CreateUserError(reply.status).None? ==>
        && authorizationToken == reply.authorization
        && username == newUser.username && password == newUser.password
        && result == ReadEntity(reply.entity)
    {
      if reply.TransportFailure? {
        return Thrown(ServiceCommunicationError);
      }
      var error := CreateUserError(reply.status);
      if error.Some? {
        return Thrown(error.value);
      }
      authorizationToken := reply.authorization;
      username := newUser.username;
      password := newUser.password;
      result := ReadEntity(reply.entity);
    }

    /**
     * Login: a transport failure, 401, 404 or 422 throws with the session
     * untouched; any other status stores the Authorization header and the
     * submitted credentials, and only then reads the returned user.
     */
    method AuthenticateUser(user: UserDto, reply: Reply<UserDto>) returns (result: Outcome<UserDto>)
      modifies this
      ensures reply.TransportFailure? ==> result == Thrown(ServiceCommunicationError) && unchanged(this)
      ensures reply.Http? && AuthenticateError(reply.status).Some? ==>
        result == Thrown(AuthenticateError(reply.status).value) && unchanged(this)
      ensures reply.Http? && AuthenticateError(reply.status).None? ==>
        && authorizationToken == reply.authorization
        && username == user.username && password == user.password
        && result == ReadEntity(reply.entity)
    {
      if reply.TransportFailure? {
        return Thrown(ServiceCommunicationError);
      }
      var error := AuthenticateError(reply.status);
      if error.Some? {
        return Thrown(error.value);
      }
      authorizationToken := reply.authorization;
      username := user.username;
      password := user.password;
      result := ReadEntity(reply.entity);
    }

    /**
     * Reservation: sends the stored token in the Authorization header and
     * maps the reply's status; the session is never changed.
     */
    method ReserveSeats(request: ConcertService.ReservationRequest, reply: Reply<ConcertService.ReservationDto>)
      returns (sentAuthorization: Option<string>, result: Outcome<ConcertService.ReservationDto>)
      ensures sentAuthorization == authorizationToken
      ensures reply.TransportFailure? ==> result == Thrown(ServiceCommunicationError)
      ensures reply.Http? && ReserveError(reply.status).Some? ==> result == Thrown(ReserveError(reply.status).value)
      ensures reply.Http? && ReserveError(reply.status).None? ==> result == ReadEntity(reply.entity)
    {
      sentAuthorization := authorizationToken;
      if reply.TransportFailure? {
        return sentAuthorization, Thrown(ServiceCommunicationError);
      }
      var error := ReserveError(reply.status);
      if error.Some? {
        return sentAuthorization, Thrown(error.value);
      }
      result := ReadEntity(reply.entity);
    }

    /**
     * Credit-card registration: sends the stored token; 401 and 403 throw,
     * every other status completes (the body is not read).
     */
    method RegisterCreditCard<C>(creditCard: C, reply: Reply<()>)
      returns (sentAuthorization: Option<string>, result: Outcome<()>)
      ensures sentAuthorization == authorizationToken
      ensures reply.TransportFailure? ==> result == Thrown(ServiceCommunicationError)
      ensures reply.Http? && RegisterCreditCardError(reply.status).Some? ==>
        result == Thrown(RegisterCreditCardError(reply.status).value)
      ensures reply.Http? && RegisterCreditCardError(reply.status).None? ==> result == Returned(())
    {
      sentAuthorization := authorizationToken;
      if reply.TransportFailure? {
        return sentAuthorization, Thrown(ServiceCommunicationError);
      }
      var error := RegisterCreditCardError(reply.status);
      if error.Some? {
        return sentAuthorization, Thrown(error.value);
      }
      result := Returned(());
    }
  }
}
