/** The thunks of the packs slice (src/redux/packsReducer.ts): the pack-list
    fetch with its query derivation, and the create, delete and update
    coordinators that refresh the list after their request. Each thunk is a
    trace function of the API outcomes (its specification) and a method that
    dispatches into the store step by step. */
module PacksThunks {
  import opened Wrappers
  import opened Store
  import Packs = PacksSlice
  import AuthThunks
  import ResponseParsers

  /** The query of a pack-list fetch. A reset fetch sends no parameter; a
      filtered fetch sends the name filter, the slider range, the page, the
      page size and the sort code of the packs slice, and as owner the user's
      id for "My" or the empty string (no constraint) for "All". */
  function DeriveParams(packs: Packs.PacksState, profileId: Option<string>, activeDefaultValue: bool): (p: PacksCardParams)
    ensures activeDefaultValue ==> p == NoParams
    ensures !activeDefaultValue ==>
      && p.packName == Some(packs.packName)
      && p.min == Some(packs.slider.min)
      && p.max == Some(packs.slider.max)
      && p.page == Some(packs.page)
      && p.pageCount == Some(packs.pageCount)
      && p.sortPacks == Some(packs.sortPacks)
    ensures !activeDefaultValue && packs.whosePackCard == Packs.My ==> p.userId == profileId
    ensures !activeDefaultValue && packs.whosePackCard == Packs.All ==> p.userId == Some("")
  {
    if activeDefaultValue then NoParams
    else
      PacksCardParams(
        Some(packs.packName), Some(packs.slider.min), Some(packs.slider.max),
        Some(packs.page), Some(packs.pageCount), Some(packs.sortPacks),
        if packs.whosePackCard == Packs.My then profileId else Some(""))
  }

  /** The query a fetch issued in state `s` sends. */
  function QueryOf(s: RootState, activeDefaultValue: bool): PacksCardParams
  {
    DeriveParams(s.packs, s.auth.profileData.id, activeDefaultValue)
  }

  /** What a successful reset fetch dispatches instead of storing the result:
      every filter back to its default. */
  const ResetFilters: seq<Effect> := [
    Dispatched(PacksAct(Packs.SetMinMaxValue(0, 0))),
    Dispatched(PacksAct(Packs.SetPackName(""))),
    Dispatched(PacksAct(Packs.SortPacks(Packs.DefaultSort))),
    Dispatched(PacksAct(Packs.SetShowPacksCards(Packs.All)))]

  /** `getPacksCardTC(activeDefaultValue)` started in state `s`. */
  function GetPacksTrace(s: RootState, activeDefaultValue: bool, outcome: Result<Packs.PacksCard, ApiError>): (t: seq<Effect>)
    ensures LastStatus(t) == Some(Succeeded)
  {
    [Dispatched(SetLoading(Loading)), Called(GetPacksCard(QueryOf(s, activeDefaultValue)))]
    + FetchOutcomeTrace(activeDefaultValue, outcome)
    + [Dispatched(SetLoading(Succeeded))]
  }

  /** The branch of a fetch between its request and its finally block: the
      filter reset or the stored result on success, the catch block on
      failure. */
  function FetchOutcomeTrace(activeDefaultValue: bool, outcome: Result<Packs.PacksCard, ApiError>): seq<Effect>
  {
    match outcome
    case Success(result) =>
      if activeDefaultValue then ResetFilters else [Dispatched(PacksAct(Packs.SetPacksCard(result)))]
    case Failure(e) => CatchTrace(e)
  }

  /** The shape shared by the create, delete and update thunks: the mutating
      request, then on success the refresh and a success status, on failure
      the catch block; the finally block sets the status to succeeded. */
  function MutationTrace(call: ApiCall, outcome: Result<(), ApiError>, refresh: seq<Effect>): (t: seq<Effect>)
    ensures LastStatus(t) == Some(Succeeded)
  {
    [Dispatched(SetLoading(Loading)), Called(call)]
    + MutationOutcomeTrace(outcome, refresh)
    + [Dispatched(SetLoading(Succeeded))]
  }

  /** The branch of a mutation between its request and its finally block: the
      refresh and a succeeded status on success, the catch block on failure. */
  function MutationOutcomeTrace(outcome: Result<(), ApiError>, refresh: seq<Effect>): seq<Effect>
  {
    match outcome
    case Success(_) => refresh + [Dispatched(SetLoading(Succeeded))]
    case Failure(e) => CatchTrace(e)
  }

  /** `createPackTC(payload)` started in state `s`; the refresh is a filtered
      fetch with outcome `refreshOutcome`. */
  function CreatePackTrace(s: RootState, payload: CreatePackPayload, outcome: Result<(), ApiError>,
                           refreshOutcome: Result<Packs.PacksCard, ApiError>): (t: seq<Effect>)
    ensures LastStatus(t) == Some(Succeeded)
  {
    MutationTrace(CreatePackCard(payload), outcome, GetPacksTrace(s, false, refreshOutcome))
  }

  /** `deletePackTC(id)` started in state `s`. */
  function DeletePackTrace(s: RootState, id: string, outcome: Result<(), ApiError>,
                           refreshOutcome: Result<Packs.PacksCard, ApiError>): (t: seq<Effect>)
    ensures LastStatus(t) == Some(Succeeded)
  {
    MutationTrace(DeletePackCard(id), outcome, GetPacksTrace(s, false, refreshOutcome))
  }

  /** `changePackTC(payload, isFetchCards)` started in state `s`: the refresh
      is the cards of the pack when `isFetchCards`, the pack list otherwise. */
  function ChangePackTrace(s: RootState, payload: ChangePackPayload, isFetchCards: bool, outcome: Result<(), ApiError>,
                           refreshOutcome: Result<Packs.PacksCard, ApiError>): (t: seq<Effect>)
    ensures LastStatus(t) == Some(Succeeded)
  {
    MutationTrace(ChangePackCard(payload), outcome,
                  if isFetchCards then [CardsFetched(payload.id)] else GetPacksTrace(s, false, refreshOutcome))
  }

  // ---------------------------------------------------------------------------
  // What the fetch does to the state and which request it sends

  /** Resetting the filters issues no request and puts every filter back to
      its default, leaving the list fields and the auth slice alone. */
  lemma ResetFiltersEffect(s: RootState)
    ensures Requests(ResetFilters) == []
    ensures Run(s, ResetFilters) ==
      s.(packs := s.packs.(slider := s.packs.slider.(min := 0, max := 0),
                           packName := "", sortPacks := Packs.DefaultSort,
                           whosePackCard := Packs.All))
  {
    var t := ResetFilters;
    RequestsNone(t);
    assert t == [t[0]] + ([t[1]] + ([t[2]] + ([t[3]] + [])));
    RunCons(s, t[0], [t[1]] + ([t[2]] + ([t[3]] + [])));
    var s1 := Step(s, t[0]);
    RunCons(s1, t[1], [t[2]] + ([t[3]] + []));
    var s2 := Step(s1, t[1]);
    RunCons(s2, t[2], [t[3]] + []);
    var s3 := Step(s2, t[2]);
    RunCons(s3, t[3], []);
  }

  /** A fetch sends exactly one request, with the derived query. */
  lemma GetPacksRequests(s: RootState, activeDefaultValue: bool, outcome: Result<Packs.PacksCard, ApiError>)
    ensures Requests(GetPacksTrace(s, activeDefaultValue, outcome)) == [GetPacksCard(QueryOf(s, activeDefaultValue))]
  {
    var start := [Dispatched(SetLoading(Loading)), Called(GetPacksCard(QueryOf(s, activeDefaultValue)))];
    var middle := FetchOutcomeTrace(activeDefaultValue, outcome);
    var finish := [Dispatched(SetLoading(Succeeded))];
    RequestsAppend(start + middle, finish);
    RequestsAppend(start, middle);
    RequestsNone(finish);
    RequestsCons(start[0], [start[1]]);
    RequestsCons(start[1], []);
    assert start == [start[0]] + [start[1]];
    match outcome {
      case Failure(e) => CatchEffect(s, e);
      case Success(result) =>
        if activeDefaultValue {
          ResetFiltersEffect(s);
        } else {
          RequestsNone(middle);
        }
    }
  }

  /** A successful reset fetch puts every filter back to its default (slider
      range 0..0, empty name, "0updated", everybody's packs) and stores
      nothing of the response: the result does not depend on it. */
  lemma GetPacksResetSuccess(s: RootState, result: Packs.PacksCard)
    ensures Run(s, GetPacksTrace(s, true, Success(result))) ==
      s.(packs := s.packs.(slider := s.packs.slider.(min := 0, max := 0),
                           packName := "", sortPacks := Packs.DefaultSort,
                           whosePackCard := Packs.All))
  {
    RunBetween(s, [Dispatched(SetLoading(Loading)), Called(GetPacksCard(QueryOf(s, true)))],
               ResetFilters, [Dispatched(SetLoading(Succeeded))]);
    ResetFiltersEffect(s);
  }

  /** A successful filtered fetch stores the response and nothing else. */
  lemma GetPacksFilteredSuccess(s: RootState, result: Packs.PacksCard)
    ensures Run(s, GetPacksTrace(s, false, Success(result))) ==
      s.(packs := Packs.Reduce(s.packs, Packs.SetPacksCard(result)))
  {
    var save := Dispatched(PacksAct(Packs.SetPacksCard(result)));
    RunBetween(s, [Dispatched(SetLoading(Loading)), Called(GetPacksCard(QueryOf(s, false)))],
               [save], [Dispatched(SetLoading(Succeeded))]);
    RunCons(s, save, []);
  }

  /** A failed fetch, in either mode, changes no pack field and signs the user
      out exactly when the failure is a 401. */
  lemma GetPacksFailure(s: RootState, activeDefaultValue: bool, e: ApiError)
    ensures Run(s, GetPacksTrace(s, activeDefaultValue, Failure(e))) ==
      if e.status == Some(Unauthorized) then s.(auth := s.auth.(isLogin := false)) else s
  {
    RunBetween(s, [Dispatched(SetLoading(Loading)), Called(GetPacksCard(QueryOf(s, activeDefaultValue)))],
               CatchTrace(e), [Dispatched(SetLoading(Succeeded))]);
    CatchEffect(s, e);
  }

  /** After a successful reset fetch, the next filtered fetch asks for the
      default filters: empty name, range 0..0, "0updated", no owner. */
  lemma ResetThenFilteredQuery(s: RootState, result: Packs.PacksCard)
    ensures QueryOf(Run(s, GetPacksTrace(s, true, Success(result))), false) ==
      PacksCardParams(Some(""), Some(0), Some(0), Some(s.packs.page), Some(s.packs.pageCount),
                      Some(Packs.DefaultSort), Some(""))
  {
    GetPacksResetSuccess(s, result);
  }

  /** The profile a successful login stores has no id, so once the user has
      signed in by logging in, a "My" fetch sends no owner and the server is
      not asked to restrict the list to the user's packs. */
  lemma LoginThenMyQuery(s: RootState, data: LoginData, res: ResponseParsers.LoginResponse)
    requires ResponseParsers.ParseLoginResponse(res).Success?
    requires s.packs.whosePackCard == Packs.My
    ensures QueryOf(Run(s, AuthThunks.LoginTrace(data, Success(ResponseParsers.ParseLoginResponse(res).value))), false).userId
      == None
  {
    AuthThunks.LoginSuccess(s, data, ResponseParsers.ParseLoginResponse(res).value);
  }

  // ---------------------------------------------------------------------------
  // The coordinators that mutate and then refresh

  /** The mutating request comes first; the refresh's requests follow it only
      when the mutation succeeded. */
  lemma MutationRequests(call: ApiCall, outcome: Result<(), ApiError>, refresh: seq<Effect>)
    ensures Requests(MutationTrace(call, outcome, refresh)) ==
      [call] + (if outcome.Success? then Requests(refresh) else [])
  {
    var start := [Dispatched(SetLoading(Loading)), Called(call)];
    var middle := MutationOutcomeTrace(outcome, refresh);
    var finish := [Dispatched(SetLoading(Succeeded))];
    RequestsAppend(start + middle, finish);
    RequestsAppend(start, middle);
    RequestsNone(finish);
    RequestsCons(start[0], [start[1]]);
    RequestsCons(start[1], []);
    assert start == [start[0]] + [start[1]];
    match outcome {
      case Success(_) => RequestsAppend(refresh, finish);
      case Failure(e) => CatchEffect(InitialState, e);
    }
  }

  /** On success the state ends as the refresh leaves it; on failure only the
      catch block acts, so no refresh happens. */
  lemma MutationEffect(s: RootState, call: ApiCall, outcome: Result<(), ApiError>, refresh: seq<Effect>)
    ensures outcome.Success? ==> Run(s, MutationTrace(call, outcome, refresh)) == Run(s, refresh)
    ensures outcome.Failure? ==>
      Run(s, MutationTrace(call, outcome, refresh)) ==
        (if outcome.error.status == Some(Unauthorized) then s.(auth := s.auth.(isLogin := false)) else s)
  {
    var finish := [Dispatched(SetLoading(Succeeded))];
    RunBetween(s, [Dispatched(SetLoading(Loading)), Called(call)], MutationOutcomeTrace(outcome, refresh), finish);
    match outcome {
      case Success(_) =>
        RunAppend(s, refresh, finish);
        RunInert(Run(s, refresh), finish);
      case Failure(e) =>
        CatchEffect(s, e);
    }
  }

  /** Creating a pack: the POST, then (only if it succeeded) the list fetch. */
  lemma CreatePackRequests(s: RootState, payload: CreatePackPayload, outcome: Result<(), ApiError>,
                           refreshOutcome: Result<Packs.PacksCard, ApiError>)
    ensures Requests(CreatePackTrace(s, payload, outcome, refreshOutcome)) ==
      [CreatePackCard(payload)] + (if outcome.Success? then [GetPacksCard(QueryOf(s, false))] else [])
  {
    MutationRequests(CreatePackCard(payload), outcome, GetPacksTrace(s, false, refreshOutcome));
    GetPacksRequests(s, false, refreshOutcome);
  }

  /** Deleting a pack: the DELETE, then (only if it succeeded) the list fetch. */
  lemma DeletePackRequests(s: RootState, id: string, outcome: Result<(), ApiError>,
                           refreshOutcome: Result<Packs.PacksCard, ApiError>)
    ensures Requests(DeletePackTrace(s, id, outcome, refreshOutcome)) ==
      [DeletePackCard(id)] + (if outcome.Success? then [GetPacksCard(QueryOf(s, false))] else [])
  {
    MutationRequests(DeletePackCard(id), outcome, GetPacksTrace(s, false, refreshOutcome));
    GetPacksRequests(s, false, refreshOutcome);
  }

  /** Updating a pack: the update request, then (only if it succeeded) either
      the cards of that pack or the pack list, as `isFetchCards` says. */
  lemma ChangePackRefresh(s: RootState, payload: ChangePackPayload, isFetchCards: bool,
                          outcome: Result<(), ApiError>, refreshOutcome: Result<Packs.PacksCard, ApiError>)
    ensures Requests(ChangePackTrace(s, payload, isFetchCards, outcome, refreshOutcome)) ==
      [ChangePackCard(payload)] + (if outcome.Success? && !isFetchCards then [GetPacksCard(QueryOf(s, false))] else [])
    ensures CardsFetched(payload.id) in ChangePackTrace(s, payload, isFetchCards, outcome, refreshOutcome)
      <==> outcome.Success? && isFetchCards
  {
    var refresh := if isFetchCards then [CardsFetched(payload.id)] else GetPacksTrace(s, false, refreshOutcome);
    MutationRequests(ChangePackCard(payload), outcome, refresh);
    GetPacksRequests(s, false, refreshOutcome);
    MutationFetchesCards(ChangePackCard(payload), outcome, refresh, payload.id);
    if isFetchCards {
      RequestsNone(refresh);
    } else {
      GetPacksFetchesNoCards(s, refreshOutcome, payload.id);
    }
  }

  /** A mutation fetches a pack's cards only through its refresh, and only
      when it succeeded. */
  lemma MutationFetchesCards(call: ApiCall, outcome: Result<(), ApiError>, refresh: seq<Effect>, id: string)
    ensures CardsFetched(id) in MutationTrace(call, outcome, refresh) <==> outcome.Success? && CardsFetched(id) in refresh
  {
    match outcome {
      case Success(_) =>
      case Failure(e) => assert CatchTrace(e) == MutationOutcomeTrace(outcome, refresh);
    }
  }

  /** A filtered list fetch never fetches cards. */
  lemma GetPacksFetchesNoCards(s: RootState, refreshOutcome: Result<Packs.PacksCard, ApiError>, id: string)
    ensures CardsFetched(id) !in GetPacksTrace(s, false, refreshOutcome)
  {
  }

  /** A successful create with a successful refresh stores the fresh list and
      changes nothing else. */
  lemma CreatePackSuccess(s: RootState, payload: CreatePackPayload, result: Packs.PacksCard)
    ensures Run(s, CreatePackTrace(s, payload, Success(()), Success(result))) ==
      s.(packs := Packs.Reduce(s.packs, Packs.SetPacksCard(result)))
  {
    MutationEffect(s, CreatePackCard(payload), Success(()), GetPacksTrace(s, false, Success(result)));
    GetPacksFilteredSuccess(s, result);
  }

  /** A failed delete changes no pack field, whatever the refresh would have
      returned, and signs the user out exactly on 401. */
  lemma DeletePackFailure(s: RootState, id: string, e: ApiError, refreshOutcome: Result<Packs.PacksCard, ApiError>)
    ensures Run(s, DeletePackTrace(s, id, Failure(e), refreshOutcome)) ==
      if e.status == Some(Unauthorized) then s.(auth := s.auth.(isLogin := false)) else s
  {
    MutationEffect(s, DeletePackCard(id), Failure(e), GetPacksTrace(s, false, refreshOutcome));
  }

  // ---------------------------------------------------------------------------
  // The thunks as they run against the store

  /** `getPacksCardTC(activeDefaultValue)`: reads the query from the current
      state, requests the list, then stores it or resets the filters. */
  method GetPacksCardTC(store: Store, activeDefaultValue: bool, outcome: Result<Packs.PacksCard, ApiError>)
    requires store.Valid()
    modifies store
    ensures store.Valid() && store.initial == old(store.initial)
    ensures store.effects == old(store.effects) + GetPacksTrace(old(store.state), activeDefaultValue, outcome)
    ensures store.state == Run(old(store.state), GetPacksTrace(old(store.state), activeDefaultValue, outcome))
  {
    var params := NoParams;
    if !activeDefaultValue {
      var packs := store.state.packs;
      params := PacksCardParams(
        Some(packs.packName), Some(packs.slider.min), Some(packs.slider.max),
        Some(packs.page), Some(packs.pageCount), Some(packs.sortPacks),
        if packs.whosePackCard == Packs.My then store.state.auth.profileData.id else Some(""));
    }
    assert params == QueryOf(old(store.state), activeDefaultValue);
    store.Dispatch(SetLoading(Loading));
    store.Call(GetPacksCard(params));
    ghost var afterRequest := store.effects;
    match outcome {
      case Success(result) =>
        if activeDefaultValue {
          store.Dispatch(PacksAct(Packs.SetMinMaxValue(0, 0)));
          store.Dispatch(PacksAct(Packs.SetPackName("")));
          store.Dispatch(PacksAct(Packs.SortPacks(Packs.DefaultSort)));
          store.Dispatch(PacksAct(Packs.SetShowPacksCards(Packs.All)));
        } else {
          store.Dispatch(PacksAct(Packs.SetPacksCard(result)));
        }
      case Failure(e) =>
        Catch(store, e);
    }
    ghost var middle := FetchOutcomeTrace(activeDefaultValue, outcome);
    assert store.effects == afterRequest + middle;
    store.Dispatch(SetLoading(Succeeded));
    ghost var start := [Dispatched(SetLoading(Loading)), Called(GetPacksCard(params))];
    ghost var finish := [Dispatched(SetLoading(Succeeded))];
    assert afterRequest == old(store.effects) + start;
    assert store.effects == old(store.effects) + start + middle + finish;
    Regroup(old(store.effects), start, middle, finish);
    RunAppend(store.initial, old(store.effects), GetPacksTrace(old(store.state), activeDefaultValue, outcome));
  }

  /** The nested list refresh of a mutation reads the state after the loading
      status, which is the state the thunk started in. */
  method Refresh(store: Store, isFetchCards: bool, packId: string, refreshOutcome: Result<Packs.PacksCard, ApiError>)
    requires store.Valid()
    modifies store
    ensures store.Valid() && store.initial == old(store.initial)
    ensures store.effects == old(store.effects) +
      (if isFetchCards then [CardsFetched(packId)] else GetPacksTrace(old(store.state), false, refreshOutcome))
  {
    if isFetchCards {
      store.FetchCards(packId);
    } else {
      GetPacksCardTC(store, false, refreshOutcome);
    }
  }

  /** The try/catch/finally every mutation thunk runs once its request is
      known: the request, the refresh or the catch block, the final status. */
  method Mutate(store: Store, call: ApiCall, outcome: Result<(), ApiError>,
                isFetchCards: bool, packId: string, refreshOutcome: Result<Packs.PacksCard, ApiError>)
    requires store.Valid()
    modifies store
    ensures store.Valid() && store.initial == old(store.initial)
    ensures store.effects == old(store.effects) +
      MutationTrace(call, outcome,
                    if isFetchCards then [CardsFetched(packId)] else GetPacksTrace(old(store.state), false, refreshOutcome))
  {
    ghost var s0 := store.state;
    ghost var refresh := if isFetchCards then [CardsFetched(packId)] else GetPacksTrace(s0, false, refreshOutcome);
    store.Dispatch(SetLoading(Loading));
    store.Call(call);
    assert store.state == s0;
    ghost var afterRequest := store.effects;
    match outcome {
      case Success(_) =>
        Refresh(store, isFetchCards, packId, refreshOutcome);
        assert store.effects == afterRequest + refresh;
        store.Dispatch(SetLoading(Succeeded));
        assert store.effects == afterRequest + (refresh + [Dispatched(SetLoading(Succeeded))]);
      case Failure(e) =>
        Catch(store, e);
        assert store.effects == afterRequest + CatchTrace(e);
    }
    ghost var middle := MutationOutcomeTrace(outcome, refresh);
    assert store.effects == afterRequest + middle;
    store.Dispatch(SetLoading(Succeeded));
    ghost var start := [Dispatched(SetLoading(Loading)), Called(call)];
    ghost var finish := [Dispatched(SetLoading(Succeeded))];
    assert afterRequest == old(store.effects) + start;
    assert store.effects == old(store.effects) + start + middle + finish;
    Regroup(old(store.effects), start, middle, finish);
  }

  /** `createPackTC(payload)`. */
  method CreatePackTC(store: Store, payload: CreatePackPayload, outcome: Result<(), ApiError>,
                      refreshOutcome: Result<Packs.PacksCard, ApiError>)
    requires store.Valid()
    modifies store
    ensures store.Valid() && store.initial == old(store.initial)
    ensures store.effects == old(store.effects) + CreatePackTrace(old(store.state), payload, outcome, refreshOutcome)
    ensures store.state == Run(old(store.state), CreatePackTrace(old(store.state), payload, outcome, refreshOutcome))
  {
    Mutate(store, CreatePackCard(payload), outcome, false, "", refreshOutcome);
    RunAppend(store.initial, old(store.effects), CreatePackTrace(old(store.state), payload, outcome, refreshOutcome));
  }

  /** `deletePackTC(id)`. */
  method DeletePackTC(store: Store, id: string, outcome: Result<(), ApiError>,
                      refreshOutcome: Result<Packs.PacksCard, ApiError>)
    requires store.Valid()
    modifies store
    ensures store.Valid() && store.initial == old(store.initial)
    ensures store.effects == old(store.effects) + DeletePackTrace(old(store.state), id, outcome, refreshOutcome)
    ensures store.state == Run(old(store.state), DeletePackTrace(old(store.state), id, outcome, refreshOutcome))
  {
    Mutate(store, DeletePackCard(id), outcome, false, "", refreshOutcome);
    RunAppend(store.initial, old(store.effects), DeletePackTrace(old(store.state), id, outcome, refreshOutcome));
  }

  /** `changePackTC(payload, isFetchCards)`. */
  method ChangePackTC(store: Store, payload: ChangePackPayload, isFetchCards: bool, outcome: Result<(), ApiError>,
                      refreshOutcome: Result<Packs.PacksCard, ApiError>)
    requires store.Valid()
    modifies store
    ensures store.Valid() && store.initial == old(store.initial)
    ensures store.effects == old(store.effects) + ChangePackTrace(old(store.state), payload, isFetchCards, outcome, refreshOutcome)
    ensures store.state == Run(old(store.state), ChangePackTrace(old(store.state), payload, isFetchCards, outcome, refreshOutcome))
  {
    Mutate(store, ChangePackCard(payload), outcome, isFetchCards, payload.id, refreshOutcome);
    RunAppend(store.initial, old(store.effects),
              ChangePackTrace(old(store.state), payload, isFetchCards, outcome, refreshOutcome));
  }
}
