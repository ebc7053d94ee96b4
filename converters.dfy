/**
 * UsersConverter and AppsConverter: field-by-field copies between stored
 * records and transfer objects, null mapping to null.
 */
module Converters {
  import opened Wrappers
  import opened Entities

  // ---------------------------------------------------------------------
  // UsersConverter

  /** UsersConverter.toDTO on a non-null user. */
  function UserToDto(u: User): UsersDto {
    UsersDto(u.id, None, u.nickname, u.avatarUrl, None, None, u.status)
  }

  /** UsersConverter.toEntity on a non-null DTO. */
  function UserFromDto(d: UsersDto): User {
    User(d.id, d.nickname, None, None, d.avatar, d.status)
  }

  /** UsersConverter.toDTO: null maps to null. */
  function UsersToDto(u: Option<User>): (r: Option<UsersDto>)
    ensures r.None? <==> u.None?
  {
    match u
    case None => None
    case Some(v) => Some(UserToDto(v))
  }

  /** UsersConverter.toEntity: null maps to null. */
  function UsersToEntity(d: Option<UsersDto>): (r: Option<User>)
    ensures r.None? <==> d.None?
  {
    match d
    case None => None
    case Some(v) => Some(UserFromDto(v))
  }

  /** toDTO copies id, nickname and status, carries avatarUrl over as avatar
      and leaves username, phone and email null. */
  lemma UserToDtoFields(u: User)
    ensures UserToDto(u).id == u.id && UserToDto(u).nickname == u.nickname
    ensures UserToDto(u).status == u.status && UserToDto(u).avatar == u.avatarUrl
    ensures UserToDto(u).username.None? && UserToDto(u).phone.None? && UserToDto(u).email.None?
  {
  }

  /** Entity to DTO and back keeps id, nickname, avatarUrl and status and
      loses e-mail and password. */
  lemma UserEntityRoundTrip(u: User)
    ensures UserFromDto(UserToDto(u)) == u.(email := None, password := None)
  {
  }

  /** DTO to entity and back keeps id, nickname, avatar and status and loses
      username, phone and e-mail. */
  lemma UserDtoRoundTrip(d: UsersDto)
    ensures UserToDto(UserFromDto(d)) == d.(username := None, phone := None, email := None)
  {
  }

  // ---------------------------------------------------------------------
  // AppsConverter

  /** AppsConverter.toDTO on a non-null app. */
  function AppToDto(a: App): AppsDto {
    AppsDto(a.id, a.appId, a.appName, a.appSecret, a.description, a.status)
  }

  /** AppsConverter.toEntity on a non-null DTO. */
  function AppFromDto(d: AppsDto): App {
    App(d.id, d.appName, d.appId, d.appSecret, d.description, d.status)
  }

  function AppsToDto(a: Option<App>): (r: Option<AppsDto>)
    ensures r.None? <==> a.None?
  {
    match a
    case None => None
    case Some(v) => Some(AppToDto(v))
  }

  function AppsToEntity(d: Option<AppsDto>): (r: Option<App>)
    ensures r.None? <==> d.None?
  {
    match d
    case None => None
    case Some(v) => Some(AppFromDto(v))
  }

  /** The two directions are inverse: every field, the description
      included, survives both round trips. */
  lemma AppRoundTrips(a: App, d: AppsDto)
    ensures AppFromDto(AppToDto(a)) == a
    ensures AppToDto(AppFromDto(d)) == d
  {
  }

  // ---------------------------------------------------------------------
  // The private converters of the QR and mini-program login service

  /** convertEntityToDto: like AppToDto but without the description. */
  function AuthAppToDto(a: App): AppsDto {
    AppsDto(a.id, a.appId, a.appName, a.appSecret, None, a.status)
  }

  /** convertDtoToEntity: like AppFromDto but without the description. */
  function AuthAppFromDto(d: AppsDto): App {
    App(d.id, d.appName, d.appId, d.appSecret, None, d.status)
  }

  /** The login service's converters agree with AppsConverter except that
      they drop the description. */
  lemma AuthConvertersDropDescription(a: App, d: AppsDto)
    ensures AuthAppToDto(a) == AppToDto(a).(description := None)
    ensures AuthAppFromDto(d) == AppFromDto(d).(description := None)
    ensures AuthAppFromDto(AuthAppToDto(a)) == a.(description := None)
  {
  }
}
