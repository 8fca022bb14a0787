/**
 * The TMonClient object: a validated, never reassigned configuration and
 * the record of the delivery workers its `track` calls have started.
 */
module Client {
  import opened Wrappers
  import opened PyValues
  import opened Settings
  import opened Delivery

  class TMonClient {
    /** The settings dict, stored as given. */
    const config: Config
    /** The fields of every delivery worker started so far, in order (a record of the threads, not a Python attribute). */
    ghost var deliveries: seq<Fields>

    ghost predicate Valid()
      reads this
    {
      ValidConfig(config) &&
      forall i :: 0 <= i < |deliveries| ==> deliveries[i] != map[]
    }

    /** The object once validation has succeeded. */
    constructor (settings: Config)
      requires ValidConfig(settings)
      ensures Valid() && config == settings && deliveries == []
    {
      config := settings;
      deliveries := [];
    }

    /** `TMonClient(settings)`: a new client, or the exception the constructor raises. */
    static method Create(settings: Settings) returns (r: Result<TMonClient, InitError>)
      ensures r.Failure? <==> Validate(settings).Failure?
      ensures r.Failure? ==> r.error == Validate(settings).error
      ensures r.Success? ==> settings.Dict? && r.value.config == settings.entries
      ensures r.Success? ==> fresh(r.value) && r.value.Valid() && r.value.deliveries == []
    {
      match Validate(settings)
      case Failure(e) =>
        r := Failure(e);
      case Success(cfg) =>
        var client := new TMonClient(cfg);
        r := Success(client);
    }

    /** `track(**fields)`: start one delivery worker when there is at least one field, none otherwise. */
    method Track(fields: Fields)
      requires Valid()
      modifies this
      ensures Valid()
      ensures fields == map[] ==> deliveries == old(deliveries)
      ensures fields != map[] ==> deliveries == old(deliveries) + [fields]
    {
      if fields != map[] {
        deliveries := deliveries + [fields];
      }
    }
  }
}
