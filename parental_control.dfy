/** The parental control service: it decides whether a customer whose
    control level is given may watch a movie, whose level it obtains from a
    movie service. */
module ParentalControl {
  import opened Wrappers
  import opened Ratings

  /** The exceptions a caller of the service can see, each with its message
      (None when it has none). TechnicalFailure is thrown both by the service
      itself and by the movie service; TitleNotFound and Unexpected (any
      runtime exception) come from the movie service only. */
  datatype Failure =
    | TechnicalFailure(message: JavaString)
    | TitleNotFound(message: JavaString)
    | Unexpected(message: JavaString)

  /** The exception the service throws itself: a technical failure built
      without a message. */
  const OwnFailure: Failure := TechnicalFailure(None)

  /** What the movie service's getParentalControlLevel does for one movie
      identifier: return a level name (possibly null) or throw. */
  datatype Answer = Returned(level: JavaString) | Raised(error: Failure)

  /** What canWatchMovie does: return a boolean or throw. */
  datatype Decision = Answered(canWatch: bool) | Thrown(error: Failure)

  /** The decision described level by level: the customer's level is
      checked, then the movie service is asked, then the movie's level is
      checked, then the movie's level must not exceed the customer's. */
  function Verdict(customerLevel: JavaString, movieId: JavaString, lookup: JavaString -> Answer): (d: Decision)
    ensures d.Answered? <==>
              ExistsControlLevel(customerLevel) && lookup(movieId).Returned? &&
              ExistsControlLevel(lookup(movieId).level)
  {
    match ValueOf(customerLevel)
    case Failure(_) => Thrown(OwnFailure)
    case Success(limit) =>
      match lookup(movieId)
      case Raised(e) => Thrown(e)
      case Returned(raw) =>
        match ValueOf(raw)
        case Failure(_) => Thrown(OwnFailure)
        case Success(level) => Answered(AtMost(level, limit))
  }

  /** The movie service collaborator, seen only through its answer for each
      movie identifier. */
  class MovieService {
    const lookup: JavaString -> Answer

    constructor (lookup: JavaString -> Answer)
      ensures this.lookup == lookup
    {
      this.lookup := lookup;
    }
  }

  /** The outcome of constructing the service. */
  datatype Construction = Constructed(service: ParentalControlService) | ConstructionFailed(error: Failure)

  class ParentalControlService {
    var movieService: MovieService

    constructor (movieService: MovieService)
      ensures this.movieService == movieService
    {
      this.movieService := movieService;
    }

    /** The public constructor: a null movie service is refused with a
        technical failure; otherwise the new service keeps it. */
    static method Create(movieService: MovieService?) returns (r: Construction)
      ensures movieService == null <==> r == ConstructionFailed(OwnFailure)
      ensures movieService != null ==>
                r.Constructed? && fresh(r.service) && r.service.movieService == movieService
    {
      if movieService == null {
        return ConstructionFailed(OwnFailure);
      }
      var service := new ParentalControlService(movieService);
      return Constructed(service);
    }

    /** canWatchMovie. It changes no state (no modifies clause), so the
        stored movie service is the same afterwards. */
    method CanWatchMovie(customerLevel: JavaString, movieId: JavaString) returns (d: Decision)
      ensures d == Verdict(customerLevel, movieId, movieService.lookup)
    {
      if !ExistsControlLevel(customerLevel) {
        return Thrown(OwnFailure);
      }
      var answer := movieService.lookup(movieId);
      if answer.Raised? {
        return Thrown(answer.error);
      }
      var level := answer.level;
      if !ExistsControlLevel(level) {
        return Thrown(OwnFailure);
      }
      return Answered(LevelMatch(level, customerLevel).value);
    }
  }

  // ----- Order of the checks -----

  /** An invalid customer level is a technical failure whatever the movie
      service would have answered: the service is not consulted. */
  lemma CustomerLevelCheckedFirst(customerLevel: JavaString, movieId: JavaString,
                                  lookup: JavaString -> Answer, other: JavaString -> Answer)
    requires !ExistsControlLevel(customerLevel)
    ensures Verdict(customerLevel, movieId, lookup) == Thrown(OwnFailure)
    ensures Verdict(customerLevel, movieId, lookup) == Verdict(customerLevel, movieId, other)
  {
  }

  /** The movie service is asked about the given movie only: two services
      that agree on it give the same decision. */
  lemma OnlyThisMovieConsulted(customerLevel: JavaString, movieId: JavaString,
                               lookup: JavaString -> Answer, other: JavaString -> Answer)
    requires lookup(movieId) == other(movieId)
    ensures Verdict(customerLevel, movieId, lookup) == Verdict(customerLevel, movieId, other)
  {
  }

  /** With a valid customer level, whatever the movie service throws is
      thrown unchanged. */
  lemma LookupFailurePropagates(customerLevel: JavaString, movieId: JavaString, lookup: JavaString -> Answer)
    requires ExistsControlLevel(customerLevel) && lookup(movieId).Raised?
    ensures Verdict(customerLevel, movieId, lookup) == Thrown(lookup(movieId).error)
  {
  }

  /** A movie level that is not a valid name (null included) is a technical
      failure. */
  lemma MovieLevelValidated(customerLevel: JavaString, movieId: JavaString, lookup: JavaString -> Answer)
    requires ExistsControlLevel(customerLevel)
    requires lookup(movieId).Returned? && !ExistsControlLevel(lookup(movieId).level)
    ensures Verdict(customerLevel, movieId, lookup) == Thrown(OwnFailure)
  {
  }

  /** With both levels valid, the movie may be watched exactly when its
      ordinal is at most the customer's. */
  lemma DecidedByOrdinals(customer: Level, movie: Level, movieId: JavaString, lookup: JavaString -> Answer)
    requires lookup(movieId) == Returned(Some(Name(movie)))
    ensures Verdict(Some(Name(customer)), movieId, lookup) == Answered(Ordinal(movie) <= Ordinal(customer))
  {
  }

  /** Every exception is either the service's own technical failure, thrown
      because a level was invalid, or exactly the one the movie service
      threw. */
  lemma ErrorsAccountedFor(customerLevel: JavaString, movieId: JavaString, lookup: JavaString -> Answer)
    ensures Verdict(customerLevel, movieId, lookup).Thrown? ==>
              (Verdict(customerLevel, movieId, lookup).error == OwnFailure &&
               (!ExistsControlLevel(customerLevel) ||
                (lookup(movieId).Returned? && !ExistsControlLevel(lookup(movieId).level)))) ||
              (lookup(movieId).Raised? && Verdict(customerLevel, movieId, lookup).error == lookup(movieId).error)
  {
  }

  // ----- Consequences of the order -----

  /** The customers allowed to watch a movie at level m are those at m or
      declared after it. */
  lemma PermittedCustomers(customer: Level, movie: Level, movieId: JavaString, lookup: JavaString -> Answer)
    requires lookup(movieId) == Returned(Some(Name(movie)))
    ensures Verdict(Some(Name(customer)), movieId, lookup) == Answered(customer in Declared[Ordinal(movie)..])
  {
  }

  /** If a customer may watch a movie, so may every customer whose limit is
      at least as high. */
  lemma PermissionMonotone(c1: Level, c2: Level, movieId: JavaString, lookup: JavaString -> Answer)
    requires Verdict(Some(Name(c1)), movieId, lookup) == Answered(true)
    requires AtMost(c1, c2)
    ensures Verdict(Some(Name(c2)), movieId, lookup) == Answered(true)
  {
  }

  // ----- The documented scenarios -----

  /** A movie rated A15: U, PG and A12 customers are refused, A15 and A18
      customers may watch it. */
  lemma A15MovieScenario(movieId: JavaString)
    ensures var lookup := (id: JavaString) => Returned(Some("A15"));
      && Verdict(Some("U"), movieId, lookup) == Answered(false)
      && Verdict(Some("PG"), movieId, lookup) == Answered(false)
      && Verdict(Some("A12"), movieId, lookup) == Answered(false)
      && Verdict(Some("A15"), movieId, lookup) == Answered(true)
      && Verdict(Some("A18"), movieId, lookup) == Answered(true)
  {
  }

  /** Equal levels are permitted, a less restrictive movie is permitted, a
      more restrictive one is refused. */
  lemma ComparisonScenarios(movieId: JavaString)
    ensures Verdict(Some("A12"), movieId, (id: JavaString) => Returned(Some("A12"))) == Answered(true)
    ensures Verdict(Some("A15"), movieId, (id: JavaString) => Returned(Some("PG"))) == Answered(true)
    ensures Verdict(Some("U"), movieId, (id: JavaString) => Returned(Some("A12"))) == Answered(false)
  {
  }

  /** An unknown customer level is refused, whatever the movie. */
  lemma UnknownCustomerLevelScenario(lookup: JavaString -> Answer)
    ensures Verdict(Some("A16"), Some("Titanic"), lookup) == Thrown(OwnFailure)
  {
  }

  /** Rejected inputs: a movie level that is unknown or null, and a
      lower-case customer level. */
  lemma RejectionScenarios(movieId: JavaString)
    ensures Verdict(Some("u"), movieId, (id: JavaString) => Returned(Some("U"))) == Thrown(OwnFailure)
    ensures Verdict(Some("PG"), movieId, (id: JavaString) => Returned(Some("A17"))) == Thrown(OwnFailure)
    ensures Verdict(Some("PG"), movieId, (id: JavaString) => Returned(None)) == Thrown(OwnFailure)
  {
  }

  /** A client: the service built over a movie service that rates every
      movie A15, except one it does not know and a null identifier, which it
      refuses with a technical failure of its own. */
  method Client(movieId: JavaString)
  {
    var movies := new MovieService((id: JavaString) =>
      if id == Some("Titanic") then Raised(TitleNotFound(None))
      else if id == None then Raised(TechnicalFailure(Some("no movie id")))
      else Returned(Some("A15")));
    var created := ParentalControlService.Create(movies);
    var service := created.service;
    var d := service.CanWatchMovie(Some("A12"), Some("Jaws"));
    assert d == Answered(false);
    d := service.CanWatchMovie(Some("A18"), Some("Jaws"));
    assert d == Answered(true);
    d := service.CanWatchMovie(Some("U"), Some("Titanic"));
    assert d == Thrown(TitleNotFound(None));
    d := service.CanWatchMovie(Some("U"), None);
    assert d == Thrown(TechnicalFailure(Some("no movie id")));
    d := service.CanWatchMovie(Some(""), Some("Titanic"));
    assert d == Thrown(OwnFailure);
    var refused := ParentalControlService.Create(null);
    assert refused == ConstructionFailed(OwnFailure);
  }
}
