/** The client's portfolio state and its reducer. A fetch that finds no
    portfolio is not an error: the service turns the "not found" answer into
    an empty payload. */
module PortfolioSlice {
  import opened Common
  import opened PortfolioModel
  import opened Database
  import PortfolioController

  datatype PortfolioState = PortfolioState(
    portfolio: Option<Portfolio>,
    isError: bool,
    isSuccess: bool,
    isLoading: bool,
    message: string)

  const Initial := PortfolioState(None, false, false, false, "")

  datatype Request = GetPortfolio | CreatePortfolio | UpdatePortfolio

  datatype Action =
    | Reset
    | Pending(request: Request)
    | Rejected(request: Request, message: string)
    | GotPortfolio(payload: Option<Portfolio>)
    | Created(created: Portfolio)
    | Updated(updated: Portfolio)

  predicate Fulfilled(a: Action) {
    a.GotPortfolio? || a.Created? || a.Updated?
  }

  /** The portfolio a fulfilled action carries. */
  function Payload(a: Action): Option<Portfolio>
    requires Fulfilled(a)
  {
    match a
    case GotPortfolio(p) => p
    case Created(p) => Some(p)
    case Updated(p) => Some(p)
  }

  function Reduce(st: PortfolioState, a: Action): (r: PortfolioState)
    ensures r.isLoading <==> a.Pending?
    ensures Fulfilled(a) ==> r.portfolio == Payload(a) && r.isSuccess && r.isError == st.isError
    ensures a.Rejected? ==> r.isError && r.message == a.message && r.isSuccess == st.isSuccess
    // only a fulfilled action or a refused fetch moves the portfolio
    ensures !Fulfilled(a) && !(a.Rejected? && a.request == GetPortfolio) ==> r.portfolio == st.portfolio
  {
    match a
    case Reset => st.(isLoading := false, isSuccess := false, isError := false, message := "")
    case Pending(_) => st.(isLoading := true)
    case Rejected(request, message) =>
      var r := st.(isLoading := false, isError := true, message := message);
      if request == GetPortfolio then r.(portfolio := None) else r
    case GotPortfolio(p) => st.(isLoading := false, isSuccess := true, portfolio := p)
    case Created(p) => st.(isLoading := false, isSuccess := true, portfolio := Some(p))
    case Updated(p) => st.(isLoading := false, isSuccess := true, portfolio := Some(p))
  }

  /** The state after a run of actions, in order. */
  function Run(st: PortfolioState, actions: seq<Action>): PortfolioState
    decreases |actions|
  {
    if |actions| == 0 then st else Run(Reduce(st, actions[0]), actions[1..])
  }

  /** A reset clears the flags and the message but keeps the portfolio, so it
      differs from the initial state whenever a portfolio is held. */
  lemma ResetKeepsPortfolio(st: PortfolioState)
    ensures Reduce(st, Reset) == Initial.(portfolio := st.portfolio)
    ensures st.portfolio.Some? ==> Reduce(st, Reset) != Initial
  {
  }

  /** A pending action changes nothing but the loading flag. */
  lemma PendingOnlyLoads(st: PortfolioState, request: Request)
    ensures Reduce(st, Pending(request)) == st.(isLoading := true)
  {
  }

  /** A refused fetch drops the portfolio; a refused create or update keeps it. */
  lemma RejectedFetchClears(st: PortfolioState, request: Request, message: string)
    ensures var r := Reduce(st, Rejected(request, message));
      && (request == GetPortfolio ==> r.portfolio.None?)
      && (request != GetPortfolio ==> r.portfolio == st.portfolio)
  {
  }

  /** Only fulfilled actions and refused fetches move the portfolio, however
      many other actions come in between. */
  lemma {:induction false} OthersKeepPortfolio(st: PortfolioState, actions: seq<Action>)
    requires forall k :: 0 <= k < |actions| ==>
      !Fulfilled(actions[k]) && !(actions[k].Rejected? && actions[k].request == GetPortfolio)
    ensures Run(st, actions).portfolio == st.portfolio
    decreases |actions|
  {
    if |actions| > 0 {
      OthersKeepPortfolio(Reduce(st, actions[0]), actions[1..]);
    }
  }

  // ---- the client mirrors the server ----

  /** What a fetch dispatches for a server answer: the portfolio, an empty
      payload for "not found", or a refusal with the server's message. */
  function FetchAction(answer: Result<Portfolio>): (a: Action)
    ensures answer.Ok? ==> a == GotPortfolio(Some(answer.value))
    ensures answer.Err? && answer.error.kind == NotFound ==> a == GotPortfolio(None)
    ensures answer.Err? && answer.error.kind != NotFound ==> a == Rejected(GetPortfolio, answer.error.message)
  {
    match answer
    case Ok(p) => GotPortfolio(Some(p))
    case Err(e) => if e.kind == NotFound then GotPortfolio(None) else Rejected(GetPortfolio, e.message)
  }

  /** After a fetch the client holds the requester's portfolio, or none when
      the requester has none; the error flag is untouched either way. */
  lemma FetchMirrors(s: Store, st: PortfolioState, requester: Id)
    ensures var r := Reduce(st, FetchAction(PortfolioController.GetPortfolio(s, requester)));
      && (r.portfolio.Some? <==> PortfolioController.OwnsPortfolio(s, requester))
      && (r.portfolio.Some? ==> r.portfolio.value in s.portfolios && r.portfolio.value.user == requester)
      && r.isError == st.isError
  {
  }
}
