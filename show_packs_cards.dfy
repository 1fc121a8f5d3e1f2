/** The "All"/"My" buttons of the packs list (src/feature/packsList/
    ShowPacksCards.tsx): a click resets the slider range to the full card
    count range, switches the owner filter and marks the slider for
    re-initialisation, as three dispatches into the store. */
module ShowPacksCards {
  import opened Store
  import Packs = PacksSlice

  /** The three dispatches of a click on `changeButton`, reading the card
      count range of the packs slice as it is before the click. */
  function ShowPacksTrace(packs: Packs.PacksState, changeButton: Packs.Owner): seq<Effect>
  {
    [Dispatched(PacksAct(Packs.SetMinMaxValue(packs.minCardsCount, packs.maxCardsCount))),
     Dispatched(PacksAct(Packs.SetShowPacksCards(changeButton))),
     Dispatched(PacksAct(Packs.SetIsInitializedSlider(false)))]
  }

  /** The state after a click: the slider spans the card count range and is
      not initialised, the owner filter is the button; the list, the counts,
      the page, the page size, the sort code, the name filter and the auth
      slice are as they were. */
  function AfterClick(s: RootState, changeButton: Packs.Owner): RootState
  {
    s.(packs := s.packs.(whosePackCard := changeButton,
                         slider := Packs.Slider(false, s.packs.maxCardsCount, s.packs.minCardsCount)))
  }

  lemma ShowPacksEffect(s: RootState, changeButton: Packs.Owner)
    ensures Run(s, ShowPacksTrace(s.packs, changeButton)) == AfterClick(s, changeButton)
    ensures Requests(ShowPacksTrace(s.packs, changeButton)) == []
  {
    var t := ShowPacksTrace(s.packs, changeButton);
    RunThree(s, t[0], t[1], t[2]);
    RequestsNone(t);
  }

  /** Clicking the same button twice leaves the state of a single click. */
  lemma ShowPacksIdempotent(s: RootState, changeButton: Packs.Owner)
    ensures Run(AfterClick(s, changeButton), ShowPacksTrace(AfterClick(s, changeButton).packs, changeButton)) ==
      AfterClick(s, changeButton)
  {
    ShowPacksEffect(AfterClick(s, changeButton), changeButton);
  }

  /** Both buttons are disabled while a request is loading. */
  predicate ButtonsEnabled(requestStatus: RequestStatus)
  {
    requestStatus != Loading
  }

  /** `onClickShowPacksHandler(changeButton)`. */
  method OnClickShowPacksHandler(store: Store, changeButton: Packs.Owner)
    requires store.Valid()
    modifies store
    ensures store.Valid() && store.initial == old(store.initial)
    ensures store.effects == old(store.effects) + ShowPacksTrace(old(store.state).packs, changeButton)
    ensures store.state == AfterClick(old(store.state), changeButton)
  {
    var minCardsCount := store.state.packs.minCardsCount;
    var maxCardsCount := store.state.packs.maxCardsCount;
    store.Dispatch(PacksAct(Packs.SetMinMaxValue(minCardsCount, maxCardsCount)));
    store.Dispatch(PacksAct(Packs.SetShowPacksCards(changeButton)));
    store.Dispatch(PacksAct(Packs.SetIsInitializedSlider(false)));
  }

  /** A click on a button: the handler runs only when the button is enabled. */
  method ClickButton(store: Store, changeButton: Packs.Owner, requestStatus: RequestStatus)
    requires store.Valid()
    modifies store
    ensures store.Valid() && store.initial == old(store.initial)
    ensures ButtonsEnabled(requestStatus) ==>
      store.effects == old(store.effects) + ShowPacksTrace(old(store.state).packs, changeButton) &&
      store.state == AfterClick(old(store.state), changeButton)
    ensures !ButtonsEnabled(requestStatus) ==> store.effects == old(store.effects) && store.state == old(store.state)
  {
    if ButtonsEnabled(requestStatus) {
      OnClickShowPacksHandler(store, changeButton);
    }
  }
}
