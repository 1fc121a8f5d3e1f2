/** The packs slice of the store: the state behind the packs list page and the
    reducer over its eight actions (src/redux/packsReducer.ts). */
module PacksSlice {

  /** Which packs the list shows: everybody's or the signed-in user's. */
  datatype Owner = All | My

  /** One pack as the server lists it. */
  datatype CardPack = CardPack(
    id: string,
    userId: string,
    name: string,
    cardsCount: int,
    created: string,
    updated: string,
    userName: string)

  /** The body of a successful pack-list response. */
  datatype PacksCard = PacksCard(
    cardPacks: seq<CardPack>,
    cardPacksTotalCount: int,
    maxCardsCount: int,
    minCardsCount: int,
    page: int,
    pageCount: int)

  /** The card-count range slider of the filter panel. */
  datatype Slider = Slider(isInitializedSlider: bool, max: int, min: int)

  datatype PacksState = PacksState(
    whosePackCard: Owner,
    packName: string,
    cardPacks: seq<CardPack>,
    cardPacksTotalCount: int,
    maxCardsCount: int,
    minCardsCount: int,
    page: int,
    pageCount: int,
    sortPacks: string,
    slider: Slider)

  /** Ascending by last update: the sort code the page starts with. */
  const DefaultSort: string := "0updated"

  const InitialState: PacksState :=
    PacksState(All, "", [], 0, 0, 0, 1, 5, DefaultSort, Slider(false, 0, 0))

  /** The eight actions of the slice; each constructor is its action creator. */
  datatype PacksAction =
    | SetPacksCard(packsCard: PacksCard)
    | SetPageCount(pageCount: int)
    | SetPage(newPage: int)
    | SortPacks(valueSort: string)
    | SetMinMaxValue(minValue: int, maxValue: int)
    | SetPackName(name: string)
    | SetShowPacksCards(statusPack: Owner)
    | SetIsInitializedSlider(statusSlider: bool)

  /** The individual fields of the state, the nested slider's included. */
  datatype Field =
    | OwnerFilter | NameFilter | Packs | TotalCount | MaxCount | MinCount
    | PageNumber | PageSize | SortCode | SliderInitialized | SliderMax | SliderMin

  datatype Value =
    | OwnerValue(owner: Owner)
    | Text(text: string)
    | Number(number: int)
    | Flag(flag: bool)
    | PackList(packs: seq<CardPack>)

  function Get(s: PacksState, f: Field): Value
  {
    match f
    case OwnerFilter => OwnerValue(s.whosePackCard)
    case NameFilter => Text(s.packName)
    case Packs => PackList(s.cardPacks)
    case TotalCount => Number(s.cardPacksTotalCount)
    case MaxCount => Number(s.maxCardsCount)
    case MinCount => Number(s.minCardsCount)
    case PageNumber => Number(s.page)
    case PageSize => Number(s.pageCount)
    case SortCode => Text(s.sortPacks)
    case SliderInitialized => Flag(s.slider.isInitializedSlider)
    case SliderMax => Number(s.slider.max)
    case SliderMin => Number(s.slider.min)
  }

  /** The fields an action writes, each with the value written to it. */
  function Writes(a: PacksAction): map<Field, Value>
  {
    match a
    case SetPacksCard(p) =>
      map[Packs := PackList(p.cardPacks), TotalCount := Number(p.cardPacksTotalCount),
          MaxCount := Number(p.maxCardsCount), MinCount := Number(p.minCardsCount),
          PageNumber := Number(p.page), PageSize := Number(p.pageCount)]
    case SetPageCount(n) => map[PageSize := Number(n)]
    case SetPage(n) => map[PageNumber := Number(n)]
    case SortPacks(v) => map[SortCode := Text(v)]
    case SetMinMaxValue(lo, hi) => map[SliderMin := Number(lo), SliderMax := Number(hi)]
    case SetPackName(n) => map[NameFilter := Text(n)]
    case SetShowPacksCards(o) => map[OwnerFilter := OwnerValue(o)]
    case SetIsInitializedSlider(b) => map[SliderInitialized := Flag(b)]
  }

  /** The reducer: every field the action writes takes the written value and
      every other field, top-level or in the slider, keeps its old value. */
  function Reduce(s: PacksState, a: PacksAction): (r: PacksState)
    ensures forall f :: Get(r, f) == if f in Writes(a) then Writes(a)[f] else Get(s, f)
  {
    match a
    case SetPacksCard(p) =>
      s.(cardPacks := p.cardPacks, cardPacksTotalCount := p.cardPacksTotalCount,
         maxCardsCount := p.maxCardsCount, minCardsCount := p.minCardsCount,
         page := p.page, pageCount := p.pageCount)
    case SetPageCount(n) => s.(pageCount := n)
    case SetPage(n) => s.(page := n)
    case SortPacks(v) => s.(sortPacks := v)
    case SetMinMaxValue(lo, hi) => s.(slider := s.slider.(min := lo, max := hi))
    case SetPackName(n) => s.(packName := n)
    case SetShowPacksCards(o) => s.(whosePackCard := o)
    case SetIsInitializedSlider(b) => s.(slider := s.slider.(isInitializedSlider := b))
  }

  /** The field view is complete: two states that agree on every field are
      equal, so the contract of Reduce says everything about its result. */
  lemma FieldsDetermineState(s: PacksState, t: PacksState)
    requires forall f :: Get(s, f) == Get(t, f)
    ensures s == t
  {
    assert Get(s, OwnerFilter) == Get(t, OwnerFilter);
    assert Get(s, NameFilter) == Get(t, NameFilter);
    assert Get(s, Packs) == Get(t, Packs);
    assert Get(s, TotalCount) == Get(t, TotalCount);
    assert Get(s, MaxCount) == Get(t, MaxCount);
    assert Get(s, MinCount) == Get(t, MinCount);
    assert Get(s, PageNumber) == Get(t, PageNumber);
    assert Get(s, PageSize) == Get(t, PageSize);
    assert Get(s, SortCode) == Get(t, SortCode);
    assert Get(s, SliderInitialized) == Get(t, SliderInitialized);
    assert Get(s, SliderMax) == Get(t, SliderMax);
    assert Get(s, SliderMin) == Get(t, SliderMin);
  }

  /** The six list fields of the state, as a server response carries them. */
  function Snapshot(s: PacksState): PacksCard
  {
    PacksCard(s.cardPacks, s.cardPacksTotalCount, s.maxCardsCount, s.minCardsCount,
              s.page, s.pageCount)
  }

  /** Storing a response and reading the list fields back gives the response;
      the filters and the whole slider are left as they were. */
  lemma SetPacksCardRoundTrip(s: PacksState, p: PacksCard)
    ensures Snapshot(Reduce(s, SetPacksCard(p))) == p
    ensures Reduce(s, SetPacksCard(p)).slider == s.slider
    ensures Reduce(s, SetPacksCard(p)).whosePackCard == s.whosePackCard
    ensures Reduce(s, SetPacksCard(p)).packName == s.packName
    ensures Reduce(s, SetPacksCard(p)).sortPacks == s.sortPacks
  {
    var r := Reduce(s, SetPacksCard(p));
    assert Get(r, Packs) == PackList(p.cardPacks);
    assert Get(r, TotalCount) == Number(p.cardPacksTotalCount);
    assert Get(r, MaxCount) == Number(p.maxCardsCount);
    assert Get(r, MinCount) == Number(p.minCardsCount);
    assert Get(r, PageNumber) == Number(p.page);
    assert Get(r, PageSize) == Number(p.pageCount);
    assert Get(r, SliderInitialized) == Get(s, SliderInitialized);
    assert Get(r, SliderMax) == Get(s, SliderMax);
    assert Get(r, SliderMin) == Get(s, SliderMin);
    assert Get(r, OwnerFilter) == Get(s, OwnerFilter);
    assert Get(r, NameFilter) == Get(s, NameFilter);
    assert Get(r, SortCode) == Get(s, SortCode);
  }
}
