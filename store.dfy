/** The store the thunks dispatch into, seen as a trace of effects: every
    action dispatched, every API request issued and every nested cards fetch,
    in order. The state is the fold of the dispatched actions through the
    slice reducers (src/redux/packsReducer.ts, src/redux/authReducer.ts). */
module Store {
  import opened Wrappers
  import Packs = PacksSlice
  import Auth = AuthSlice

  /** The app slice's request lifecycle. */
  datatype RequestStatus = Idle | Loading | Succeeded | Error

  /** Every action the thunks dispatch. The lifecycle, error and info actions
      belong to the app slice, which this model keeps opaque. */
  datatype Action =
    | PacksAct(packsAction: Packs.PacksAction)
    | AuthAct(authAction: Auth.AuthAction)
    | SetLoading(status: RequestStatus)
    | SetError(error: string)
    | SetInfo(info: string)

  /** The sign-up form. */
  datatype DataForm = DataForm(email: Option<string>, password: Option<string>, currPassword: Option<string>)

  datatype LoginData = LoginData(email: string, password: string, rememberMe: bool)

  /** The body of a profile update: each key present or absent. */
  datatype ProfileUpdate = ProfileUpdate(avatar: Option<string>, name: Option<string>)

  /** The query of a pack-list request; `None` is a parameter left out. */
  datatype PacksCardParams = PacksCardParams(
    packName: Option<string>,
    min: Option<int>,
    max: Option<int>,
    page: Option<int>,
    pageCount: Option<int>,
    sortPacks: Option<string>,
    userId: Option<string>)

  const NoParams: PacksCardParams := PacksCardParams(None, None, None, None, None, None, None)

  datatype CreatePackPayload = CreatePackPayload(name: Option<string>, deckCover: Option<string>, isPrivate: Option<bool>)

  /** A pack update: the pack's `_id` and the attributes sent with it. */
  datatype ChangePackPayload = ChangePackPayload(id: string, attributes: map<string, string>)

  /** The API requests the thunks issue, one per awaited call. */
  datatype ApiCall =
    | SingUp(form: DataForm)
    | Login(data: LoginData)
    | ForgotPassword(email: string)
    | SetNewPass(password: string, resetPasswordToken: string)
    | ChangeUserNameOrAvatar(update: ProfileUpdate)
    | Logout
    | GetPacksCard(params: PacksCardParams)
    | CreatePackCard(create: CreatePackPayload)
    | DeletePackCard(id: string)
    | ChangePackCard(change: ChangePackPayload)

  /** One observable step of a thunk. `CardsFetched` stands for the nested
      cards fetch, whose own dispatches are not modelled. */
  datatype Effect =
    | Dispatched(action: Action)
    | Called(call: ApiCall)
    | CardsFetched(packId: string)

  /** What a rejected API call hands to a thunk's catch block. */
  datatype ApiError = ApiError(status: Option<int>, message: string)

  const Unauthorized: int := 401

  datatype RootState = RootState(auth: Auth.AuthState, packs: Packs.PacksState)

  const InitialState: RootState := RootState(Auth.InitialState, Packs.InitialState)

  /** The root reducer: each slice reduces its own actions and returns its
      state unchanged for every other action. */
  function Reduce(s: RootState, a: Action): (r: RootState)
    ensures a.PacksAct? ==> r.packs == Packs.Reduce(s.packs, a.packsAction)
    ensures a.AuthAct? ==> r.auth == Auth.Reduce(s.auth, a.authAction)
    ensures !a.PacksAct? ==> r.packs == s.packs
    ensures !a.AuthAct? ==> r.auth == s.auth
  {
    match a
    case PacksAct(p) => s.(packs := Packs.Reduce(s.packs, p))
    case AuthAct(x) => s.(auth := Auth.Reduce(s.auth, x))
    case _ => s
  }

  function Step(s: RootState, e: Effect): RootState
  {
    if e.Dispatched? then Reduce(s, e.action) else s
  }

  /** The state after the effects of `t`, in order, starting from `s`. */
  function Run(s: RootState, t: seq<Effect>): RootState
    decreases |t|
  {
    if t == [] then s else Run(Step(s, t[0]), t[1..])
  }

  /** Running two traces one after the other is running their concatenation. */
  lemma {:induction false} RunAppend(s: RootState, a: seq<Effect>, b: seq<Effect>)
    ensures Run(s, a + b) == Run(Run(s, a), b)
    decreases |a|
  {
    if a == [] {
      assert a + b == b;
    } else {
      assert (a + b)[0] == a[0];
      assert (a + b)[1..] == a[1..] + b;
      RunAppend(Step(s, a[0]), a[1..], b);
    }
  }

  /** The status of the last lifecycle action in `t`, if there is one. */
  function LastStatus(t: seq<Effect>): Option<RequestStatus>
    decreases |t|
  {
    if t == [] then None
    else if t[|t| - 1].Dispatched? && t[|t| - 1].action.SetLoading? then Some(t[|t| - 1].action.status)
    else LastStatus(t[..|t| - 1])
  }

  /** The API requests in `t`, in the order they were issued. */
  function Requests(t: seq<Effect>): seq<ApiCall>
    decreases |t|
  {
    if t == [] then []
    else (if t[0].Called? then [t[0].call] else []) + Requests(t[1..])
  }

  lemma {:induction false} RequestsAppend(a: seq<Effect>, b: seq<Effect>)
    ensures Requests(a + b) == Requests(a) + Requests(b)
    decreases |a|
  {
    if a == [] {
      assert a + b == b;
    } else {
      assert (a + b)[0] == a[0];
      assert (a + b)[1..] == a[1..] + b;
      RequestsAppend(a[1..], b);
    }
  }

  predicate IsAuthAction(e: Effect)
  {
    e.Dispatched? && e.action.AuthAct?
  }

  predicate IsPacksAction(e: Effect)
  {
    e.Dispatched? && e.action.PacksAct?
  }

  /** A trace without auth actions leaves the auth slice as it was. */
  lemma {:induction false} RunKeepsAuth(s: RootState, t: seq<Effect>)
    requires forall i | 0 <= i < |t| :: !IsAuthAction(t[i])
    ensures Run(s, t).auth == s.auth
    decreases |t|
  {
    if t != [] {
      assert !IsAuthAction(t[0]);
      RunKeepsAuth(Step(s, t[0]), t[1..]);
    }
  }

  /** A trace without packs actions leaves the packs slice as it was. */
  lemma {:induction false} RunKeepsPacks(s: RootState, t: seq<Effect>)
    requires forall i | 0 <= i < |t| :: !IsPacksAction(t[i])
    ensures Run(s, t).packs == s.packs
    decreases |t|
  {
    if t != [] {
      assert !IsPacksAction(t[0]);
      RunKeepsPacks(Step(s, t[0]), t[1..]);
    }
  }

  /** Effects that dispatch no slice action: lifecycle, error and info
      actions, requests and nested cards fetches. */
  predicate Inert(t: seq<Effect>)
  {
    forall i | 0 <= i < |t| :: !IsAuthAction(t[i]) && !IsPacksAction(t[i])
  }

  /** Inert effects leave the whole state as it was. */
  lemma RunInert(s: RootState, t: seq<Effect>)
    requires Inert(t)
    ensures Run(s, t) == s
  {
    RunKeepsAuth(s, t);
    RunKeepsPacks(s, t);
  }

  /** Inert effects around a trace do not change what it does to the state. */
  lemma RunBetween(s: RootState, pre: seq<Effect>, mid: seq<Effect>, post: seq<Effect>)
    requires Inert(pre) && Inert(post)
    ensures Run(s, pre + mid + post) == Run(s, mid)
  {
    RunAppend(s, pre + mid, post);
    RunAppend(s, pre, mid);
    RunInert(s, pre);
    RunInert(Run(s, mid), post);
  }

  lemma RunCons(s: RootState, e: Effect, t: seq<Effect>)
    ensures Run(s, [e] + t) == Run(Step(s, e), t)
  {
    assert ([e] + t)[0] == e;
    assert ([e] + t)[1..] == t;
  }

  lemma RequestsCons(e: Effect, t: seq<Effect>)
    ensures Requests([e] + t) == (if e.Called? then [e.call] else []) + Requests(t)
  {
    assert ([e] + t)[0] == e;
    assert ([e] + t)[1..] == t;
  }

  /** Effects that issue no request contribute none. */
  lemma {:induction false} RequestsNone(t: seq<Effect>)
    requires forall i | 0 <= i < |t| :: !t[i].Called?
    ensures Requests(t) == []
    decreases |t|
  {
    if t != [] {
      assert !t[0].Called?;
      RequestsNone(t[1..]);
    }
  }

  /** Regrouping a trace made of four consecutive parts. The thunk methods
      call this rather than asserting it in place, where the surrounding
      store facts make the same step too costly for the solver. */
  lemma Regroup(a: seq<Effect>, b: seq<Effect>, c: seq<Effect>, d: seq<Effect>)
    ensures a + b + c + d == a + (b + c + d)
  {
  }

  /** The catch block every thunk shares: report the message, sign the user
      out on 401, mark the request failed. */
  function CatchTrace(e: ApiError): (t: seq<Effect>)
    ensures LastStatus(t) == Some(Error)
    ensures Dispatched(SetError(e.message)) in t
    ensures Dispatched(AuthAct(Auth.SetIsLogin(false))) in t <==> e.status == Some(Unauthorized)
  {
    [Dispatched(SetError(e.message))]
    + (if e.status == Some(Unauthorized) then [Dispatched(AuthAct(Auth.SetIsLogin(false)))] else [])
    + [Dispatched(SetLoading(Error))]
  }

  /** The catch block issues no request, touches no pack field, and changes
      the auth slice only by signing out on 401. */
  lemma CatchEffect(s: RootState, e: ApiError)
    ensures Requests(CatchTrace(e)) == []
    ensures Run(s, CatchTrace(e)) ==
      if e.status == Some(Unauthorized) then s.(auth := s.auth.(isLogin := false)) else s
  {
    var report := [Dispatched(SetError(e.message))];
    var signOut := if e.status == Some(Unauthorized) then [Dispatched(AuthAct(Auth.SetIsLogin(false)))] else [];
    var fail := [Dispatched(SetLoading(Error))];
    assert CatchTrace(e) == report + signOut + fail;
    RequestsAppend(report + signOut, fail);
    RequestsAppend(report, signOut);
    RunAppend(s, report + signOut, fail);
    RunAppend(s, report, signOut);
  }

  /** A thunk's try/catch/finally: `start` runs first; then either the rest of
      the try block (`body` succeeded) or the catch block (it failed); then the
      finally block `finish`. */
  function Attempt(start: seq<Effect>, body: Result<seq<Effect>, ApiError>, finish: seq<Effect>): seq<Effect>
  {
    start + TryOrCatch(body) + finish
  }

  /** What runs between a thunk's request and its finally block. */
  function TryOrCatch(body: Result<seq<Effect>, ApiError>): seq<Effect>
  {
    match body
    case Success(rest) => rest
    case Failure(e) => CatchTrace(e)
  }

  /** A thunk method's effects, observed at two checkpoints (after its
      start, and at the end), make up one attempt appended to what came
      before. */
  lemma AttemptAppend(before: seq<Effect>, start: seq<Effect>, afterStart: seq<Effect>,
                      body: Result<seq<Effect>, ApiError>, finish: seq<Effect>, after: seq<Effect>)
    requires afterStart == before + start
    requires after == afterStart + TryOrCatch(body) + finish
    ensures after == before + Attempt(start, body, finish)
  {
    Regroup(before, start, TryOrCatch(body), finish);
  }

  /** The requests of an attempt: those of its start, of the try block only if
      it completed, and of its finally block. */
  lemma AttemptRequests(start: seq<Effect>, body: Result<seq<Effect>, ApiError>, finish: seq<Effect>)
    ensures Requests(Attempt(start, body, finish)) ==
      Requests(start) + (if body.Success? then Requests(body.value) else []) + Requests(finish)
  {
    var middle := TryOrCatch(body);
    RequestsAppend(start + middle, finish);
    RequestsAppend(start, middle);
    if body.Failure? {
      CatchEffect(InitialState, body.error);
    }
  }

  /** With an inert start and finally block, an attempt does to the state
      what its try block does on success, and what the catch block does on
      failure: sign out on 401, nothing otherwise. */
  lemma AttemptEffect(s: RootState, start: seq<Effect>, body: Result<seq<Effect>, ApiError>, finish: seq<Effect>)
    requires Inert(start) && Inert(finish)
    ensures body.Success? ==> Run(s, Attempt(start, body, finish)) == Run(s, body.value)
    ensures body.Failure? ==>
      Run(s, Attempt(start, body, finish)) ==
        (if body.error.status == Some(Unauthorized) then s.(auth := s.auth.(isLogin := false)) else s)
  {
    var middle := TryOrCatch(body);
    RunBetween(s, start, middle, finish);
    if body.Failure? {
      CatchEffect(s, body.error);
    }
  }

  lemma RunTwo(s: RootState, a: Effect, b: Effect)
    ensures Run(s, [a, b]) == Step(Step(s, a), b)
  {
    assert [a, b] == [a] + ([b] + []);
    RunCons(s, a, [b] + []);
    RunCons(Step(s, a), b, []);
  }

  lemma RunThree(s: RootState, a: Effect, b: Effect, c: Effect)
    ensures Run(s, [a, b, c]) == Step(Step(Step(s, a), b), c)
  {
    assert [a, b, c] == [a] + [b, c];
    RunCons(s, a, [b, c]);
    RunTwo(Step(s, a), b, c);
  }

  lemma RunFour(s: RootState, a: Effect, b: Effect, c: Effect, d: Effect)
    ensures Run(s, [a, b, c, d]) == Step(Step(Step(Step(s, a), b), c), d)
  {
    assert [a, b, c, d] == [a] + [b, c, d];
    RunCons(s, a, [b, c, d]);
    RunThree(Step(s, a), b, c, d);
  }

  /** The live store. `effects` records every dispatch, request and nested
      cards fetch since the store was created; the state is always the fold of
      those effects from the state the store started in. */
  class Store {
    var state: RootState
    var effects: seq<Effect>
    ghost var initial: RootState

    ghost predicate Valid()
      reads this
    {
      state == Run(initial, effects)
    }

    constructor ()
      ensures Valid() && state == InitialState && effects == []
    {
      state := InitialState;
      effects := [];
      initial := InitialState;
    }

    /** `dispatch(action)`: run the action through the reducers. */
    method Dispatch(a: Action)
      requires Valid()
      modifies this
      ensures Valid() && initial == old(initial)
      ensures state == Reduce(old(state), a)
      ensures effects == old(effects) + [Dispatched(a)]
    {
      RunAppend(initial, effects, [Dispatched(a)]);
      state := Reduce(state, a);
      effects := effects + [Dispatched(a)];
    }

    /** An awaited API request: recorded, the state is untouched. */
    method Call(c: ApiCall)
      requires Valid()
      modifies this
      ensures Valid() && initial == old(initial)
      ensures state == old(state)
      ensures effects == old(effects) + [Called(c)]
    {
      RunAppend(initial, effects, [Called(c)]);
      effects := effects + [Called(c)];
    }

    /** The nested cards fetch of a pack, opaque to this model. */
    method FetchCards(packId: string)
      requires Valid()
      modifies this
      ensures Valid() && initial == old(initial)
      ensures state == old(state)
      ensures effects == old(effects) + [CardsFetched(packId)]
    {
      RunAppend(initial, effects, [CardsFetched(packId)]);
      effects := effects + [CardsFetched(packId)];
    }
  }

  /** The catch block as the thunks run it. */
  method Catch(store: Store, e: ApiError)
    requires store.Valid()
    modifies store
    ensures store.Valid() && store.initial == old(store.initial)
    ensures store.effects == old(store.effects) + CatchTrace(e)
  {
    store.Dispatch(SetError(e.message));
    if e.status == Some(Unauthorized) {
      store.Dispatch(AuthAct(Auth.SetIsLogin(false)));
    }
    store.Dispatch(SetLoading(Error));
  }
}
