/**
 * Domain records shared by the client (src/types/index.ts and the record
 * shapes of src/shared/schemas.ts), the uniform error record shown to the
 * screens, and the outcome of a call into a remote catalogue client.
 *
 * Floating-point values (ratings) are carried as `real`; nothing in the
 * model computes with them.
 */
module Types {

  datatype Option<+T> = None | Some(value: T) {
    function GetOr(default: T): T {
      match this
      case Some(v) => v
      case None => default
    }
  }

  /** A picture in two sizes; either URL may be missing. */
  datatype Image = Image(medium: Option<string>, original: Option<string>)

  datatype Rating = Rating(average: Option<real>)

  datatype Country = Country(name: Option<string>, code: Option<string>)

  datatype Network = Network(name: string, country: Country)

  datatype Series = Series(
    id: int,
    name: string,
    image: Option<Image>,
    genres: Option<seq<string>>,
    premiered: Option<string>,
    summary: Option<string>,
    status: Option<string>,
    rating: Option<Rating>,
    network: Option<Network>)

  datatype Episode = Episode(
    id: int,
    name: string,
    season: int,
    number: int,
    summary: Option<string>,
    image: Option<Image>,
    airdate: Option<string>,
    runtime: Option<int>)

  /** Episodes of one season, derived on the client from the flat list. */
  datatype SeasonEpisodes = SeasonEpisodes(season: int, episodes: seq<Episode>)

  datatype Person = Person(
    id: int,
    name: string,
    image: Option<Image>,
    country: Option<Country>,
    birthday: Option<string>,
    deathday: Option<string>,
    gender: Option<string>)

  datatype Link = Link(href: string, name: string)

  datatype CastCredit = CastCredit(show: Link, character: Link, voice: bool)

  /** The error record every hook exposes: a message and maybe an HTTP status. */
  datatype APIError = APIError(message: string, status: Option<int>)

  /**
   * What one awaited remote call produces: a value, a typed service error
   * (SeriesServiceError, EpisodesServiceError, PeopleServiceError, each
   * with a message and maybe a status), or any other thrown value.
   */
  datatype Fetch<+T> =
    | Ok(value: T)
    | ServiceError(message: string, status: Option<int>)
    | OtherFailure

  /**
   * The catch blocks of every hook: a typed service error keeps its message
   * and status, anything else becomes the hook's fixed generic message.
   */
  function ToAPIError<T>(f: Fetch<T>, generic: string): (e: APIError)
    requires !f.Ok?
    ensures f.ServiceError? ==> e == APIError(f.message, f.status)
    ensures f.OtherFailure? ==> e.message == generic && e.status == None
  {
    match f
    case ServiceError(m, s) => APIError(m, s)
    case OtherFailure => APIError(generic, None)
  }
}
