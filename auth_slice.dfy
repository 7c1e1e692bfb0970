/** The authentication slice of the store
    (src/caracteristicas/autenticacion/authSlice.js): the state
    `{usuario, cargando, error}`, the `logout` reducer, and the transitions for
    the pending, fulfilled and rejected stages of the `login` and `registro`
    requests. */
module AuthSlice {
  import opened Js

  /** The two asynchronous requests whose stages the slice follows. */
  datatype Thunk = Login | Registro

  /** The actions the slice reduces. */
  datatype Action =
    | Pending(thunk: Thunk)
    | Fulfilled(thunk: Thunk, payload: JsValue)
    | Rejected(thunk: Thunk, payload: JsValue)
    | Logout

  datatype AuthState = AuthState(usuario: JsValue, cargando: bool, error: JsValue)

  /** The initial state; `stored` is the user read back from storage at start-up. */
  function InitialState(stored: JsValue): (s: AuthState)
    ensures Truthy(stored) ==> s.usuario == stored
    ensures !Truthy(stored) ==> s.usuario == Null
    ensures !s.cargando && s.error == Null
  {
    AuthState(if Truthy(stored) then stored else Null, false, Null)
  }

  /** One transition. Each field changes only under the actions that own it:
      `usuario` under a fulfilment or a logout, `cargando` under the three
      request stages, `error` under a rejection. */
  function Reduce(s: AuthState, a: Action): (r: AuthState)
    ensures r.usuario != s.usuario ==> a.Fulfilled? || a.Logout?
    ensures r.cargando != s.cargando ==> !a.Logout?
    ensures r.error != s.error ==> a.Rejected?
    ensures !a.Logout? ==> (r.cargando <==> a.Pending?)
    ensures a.Logout? ==> r.usuario == Null
    ensures a.Fulfilled? ==> r.usuario == a.payload
    ensures a.Rejected? ==> r.error == a.payload
  {
    match a
    case Pending(_) => s.(cargando := true)
    case Fulfilled(_, p) => s.(cargando := false, usuario := p)
    case Rejected(_, p) => s.(cargando := false, error := p)
    case Logout => s.(usuario := Null)
  }

  /** The state after dispatching `trace` in order. */
  function Run(s: AuthState, trace: seq<Action>): AuthState
    decreases |trace|
  {
    if trace == [] then s else Run(Reduce(s, trace[0]), trace[1..])
  }

  lemma {:induction false} RunSnoc(s: AuthState, trace: seq<Action>, a: Action)
    ensures Run(s, trace + [a]) == Reduce(Run(s, trace), a)
    decreases |trace|
  {
    if trace == [] {
      assert trace + [a] == [a];
    } else {
      assert (trace + [a])[1..] == trace[1..] + [a];
      RunSnoc(Reduce(s, trace[0]), trace[1..], a);
    }
  }

  /** The user of the last fulfilment or logout in `trace`, or `d`. */
  function LastUser(trace: seq<Action>, d: JsValue): JsValue {
    if trace == [] then d
    else match trace[|trace| - 1]
      case Fulfilled(_, p) => p
      case Logout => Null
      case _ => LastUser(trace[..|trace| - 1], d)
  }

  /** Whether the last request stage in `trace` is a pending one, or `d`. */
  function LastLoading(trace: seq<Action>, d: bool): bool {
    if trace == [] then d
    else match trace[|trace| - 1]
      case Pending(_) => true
      case Logout => LastLoading(trace[..|trace| - 1], d)
      case _ => false
  }

  /** The payload of the last rejection in `trace`, or `d`. */
  function LastError(trace: seq<Action>, d: JsValue): JsValue {
    if trace == [] then d
    else match trace[|trace| - 1]
      case Rejected(_, p) => p
      case _ => LastError(trace[..|trace| - 1], d)
  }

  /** After any sequence of actions: the user is the last one a request
      fulfilled (or `null` after a later logout); the slice is loading exactly
      when the last request stage was a pending one; and the error is the last
      rejection's payload, which no later success clears. */
  lemma {:induction false} RunSummary(s: AuthState, trace: seq<Action>)
    ensures Run(s, trace).usuario == LastUser(trace, s.usuario)
    ensures Run(s, trace).cargando == LastLoading(trace, s.cargando)
    ensures Run(s, trace).error == LastError(trace, s.error)
    decreases |trace|
  {
    if trace != [] {
      var init := trace[..|trace| - 1];
      var a := trace[|trace| - 1];
      assert trace == init + [a];
      RunSnoc(s, init, a);
      RunSummary(s, init);
    }
  }

  /** `login` and `registro` have the same transitions. */
  function WithThunk(a: Action, t: Thunk): Action {
    match a
    case Pending(_) => Pending(t)
    case Fulfilled(_, p) => Fulfilled(t, p)
    case Rejected(_, p) => Rejected(t, p)
    case Logout => Logout
  }

  lemma ThunkIsIrrelevant(s: AuthState, a: Action, t: Thunk)
    ensures Reduce(s, WithThunk(a, t)) == Reduce(s, a)
  {
  }

  /** Relabelling every request in a trace as the other request changes nothing. */
  lemma {:induction false} ThunkIsIrrelevantForTraces(s: AuthState, trace: seq<Action>, t: Thunk)
    ensures Run(s, seq(|trace|, i requires 0 <= i < |trace| => WithThunk(trace[i], t))) == Run(s, trace)
    decreases |trace|
  {
    var relabelled := seq(|trace|, i requires 0 <= i < |trace| => WithThunk(trace[i], t));
    if trace != [] {
      assert relabelled[1..] == seq(|trace[1..]|, i requires 0 <= i < |trace[1..]| => WithThunk(trace[1..][i], t));
      ThunkIsIrrelevant(s, trace[0], t);
      ThunkIsIrrelevantForTraces(Reduce(s, trace[0]), trace[1..], t);
    }
  }

  /** A rejection followed by a successful login leaves the old error in place. */
  lemma StaleErrorSurvivesLogin(s: AuthState, message: JsValue, user: JsValue)
    ensures var r := Run(s, [Pending(Login), Rejected(Login, message), Pending(Login), Fulfilled(Login, user)]);
      r.error == message && r.usuario == user && !r.cargando
  {
    var t := [Pending(Login), Rejected(Login, message), Pending(Login), Fulfilled(Login, user)];
    RunSummary(s, t);
    assert t[..3] == [Pending(Login), Rejected(Login, message), Pending(Login)];
    assert t[..3][..2] == [Pending(Login), Rejected(Login, message)];
    assert LastError(t[..3][..2], s.error) == message;
    assert LastError(t[..3], s.error) == message;
    assert LastError(t, s.error) == message;
  }

  /** The store holding the slice; the reducers assign its fields in place. */
  class AuthStore {
    var usuario: JsValue
    var cargando: bool
    var error: JsValue

    function State(): AuthState
      reads this
    {
      AuthState(usuario, cargando, error)
    }

    constructor (stored: JsValue)
      ensures State() == InitialState(stored)
    {
      usuario := if Truthy(stored) then stored else Null;
      cargando := false;
      error := Null;
    }

    /** Dispatches one action to the slice. */
    method Dispatch(a: Action)
      modifies this
      ensures State() == Reduce(old(State()), a)
    {
      match a
      case Pending(_) =>
        cargando := true;
      case Fulfilled(_, p) =>
        cargando := false;
        usuario := p;
      case Rejected(_, p) =>
        cargando := false;
        error := p;
      case Logout =>
        usuario := Null;
    }
  }
}
