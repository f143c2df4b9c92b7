/**
 * The person details screen's state (src/features/people/hooks/usePersonDetails.ts).
 *
 * The two remote calls awaited together are parameters from the person
 * id to what each produces. When both fail, the model reports the error of
 * the person fetch.
 */
module PersonDetails {

  import opened Types

  /** Combines the two settled calls as `Promise.all` does: both values, or the first failure. */
  function BothFetched(p: Fetch<Person>, c: Fetch<seq<CastCredit>>): (r: Fetch<(Person, seq<CastCredit>)>)
    ensures r.Ok? <==> p.Ok? && c.Ok?
    ensures r.Ok? ==> r.value == (p.value, c.value)
    ensures !p.Ok? ==> (r.ServiceError? <==> p.ServiceError?)
    ensures p.ServiceError? ==> r.message == p.message && r.status == p.status
    ensures p.Ok? && !c.Ok? ==> (r.ServiceError? <==> c.ServiceError?)
    ensures p.Ok? && c.ServiceError? ==> r.message == c.message && r.status == c.status
  {
    match p
    case ServiceError(m, s) => ServiceError(m, s)
    case OtherFailure => OtherFailure
    case Ok(person) =>
      match c
      case ServiceError(m, s) => ServiceError(m, s)
      case OtherFailure => OtherFailure
      case Ok(credits) => Ok((person, credits))
  }

  /** The state of one `usePersonDetails` hook for a fixed person id. */
  class PersonDetailsState {
    const personId: int
    var person: Option<Person>
    var castCredits: seq<CastCredit>
    var loading: bool
    var error: Option<APIError>

    /** Credits are only ever shown together with the person they belong to. */
    predicate Valid()
      reads this
    {
      person == None ==> castCredits == []
    }

    constructor (id: int)
      ensures personId == id && person == None && castCredits == [] && loading && error == None
      ensures Valid()
    {
      personId := id;
      person := None;
      castCredits := [];
      loading := true;
      error := None;
    }

    /**
     * `fetchPersonDetails`: nothing at all for a falsy id (`loading` keeps
     * its value); otherwise both calls are awaited, their values are shown
     * when both succeed, and when either fails the previous person and
     * credits stay and the mapped error is recorded. `loading` ends false.
     */
    method FetchPersonDetails(fetchPerson: int -> Fetch<Person>, fetchCredits: int -> Fetch<seq<CastCredit>>)
      requires Valid()
      modifies this
      ensures Valid()
      ensures personId == 0 ==>
        person == old(person) && castCredits == old(castCredits) && loading == old(loading) && error == old(error)
      ensures personId != 0 ==> !loading
      ensures personId != 0 && fetchPerson(personId).Ok? && fetchCredits(personId).Ok? ==>
        person == Some(fetchPerson(personId).value) && castCredits == fetchCredits(personId).value && error == None
      ensures personId != 0 && !(fetchPerson(personId).Ok? && fetchCredits(personId).Ok?) ==>
        person == old(person) && castCredits == old(castCredits)
        && error == Some(ToAPIError(BothFetched(fetchPerson(personId), fetchCredits(personId)),
                                    "Failed to load person details"))
    {
      if personId == 0 {
        return;
      }
      loading := true;
      error := None;
      var fetched := BothFetched(fetchPerson(personId), fetchCredits(personId));
      match fetched {
        case Ok(pair) =>
          person := Some(pair.0);
          castCredits := pair.1;
        case _ =>
          error := Some(ToAPIError(fetched, "Failed to load person details"));
      }
      loading := false;
    }

    /** `retryFetch`: the same fetch again. */
    method RetryFetch(fetchPerson: int -> Fetch<Person>, fetchCredits: int -> Fetch<seq<CastCredit>>)
      requires Valid()
      modifies this
      ensures Valid()
      ensures personId == 0 ==>
        person == old(person) && castCredits == old(castCredits) && loading == old(loading) && error == old(error)
      ensures personId != 0 ==> !loading
      ensures personId != 0 && fetchPerson(personId).Ok? && fetchCredits(personId).Ok? ==>
        person == Some(fetchPerson(personId).value) && castCredits == fetchCredits(personId).value && error == None
      ensures personId != 0 && !(fetchPerson(personId).Ok? && fetchCredits(personId).Ok?) ==>
        person == old(person) && castCredits == old(castCredits)
        && error == Some(ToAPIError(BothFetched(fetchPerson(personId), fetchCredits(personId)),
                                    "Failed to load person details"))
    {
      FetchPersonDetails(fetchPerson, fetchCredits);
    }
  }
}
