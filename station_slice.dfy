/**
 * The station slice of the store: a loading flag, the last request error and the
 * locally mirrored list of stations, updated by the pending / fulfilled / rejected
 * cases of the three station requests (load, add, delete) and by `clearStations`.
 *
 * The slice's exported reducer is the pure function `Reduce`; the case reducers,
 * which assign the draft's fields in place, are the methods of `StationState`,
 * each proved to leave the state that `Reduce` prescribes.
 */
module StationSlice {

  datatype Station = Station(id: int, name: string)

  /** The body of a failed request, `{ errorMessage }`, delivered as a rejected action's payload. */
  datatype ErrorMessageResponse = ErrorMessageResponse(errorMessage: string)

  datatype SliceState = SliceState(isLoading: bool, errorMessage: string, stations: seq<Station>)

  /** The actions the slice reacts to; a fulfilled or rejected case carries the payload its request resolved with. */
  datatype Action =
    | ClearStations
    | LoadStationsPending
    | LoadStationsFulfilled(loaded: seq<Station>)
    | LoadStationsRejected(error: ErrorMessageResponse)
    | AddStationPending
    | AddStationFulfilled(added: Station)
    | AddStationRejected(error: ErrorMessageResponse)
    | DeleteStationPending
    | DeleteStationFulfilled(deletedId: int)
    | DeleteStationRejected(error: ErrorMessageResponse)
  {
    predicate IsPending() {
      LoadStationsPending? || AddStationPending? || DeleteStationPending?
    }

    predicate IsFulfilled() {
      LoadStationsFulfilled? || AddStationFulfilled? || DeleteStationFulfilled?
    }

    predicate IsRejected() {
      LoadStationsRejected? || AddStationRejected? || DeleteStationRejected?
    }

    /** A request has resolved, one way or the other. */
    predicate IsResolution() {
      IsFulfilled() || IsRejected()
    }
  }

  const InitialState: SliceState := SliceState(false, "", [])

  /** The stations of `s` whose id differs from `id`, each as often as in `s`, in their original order. */
  function WithoutId(s: seq<Station>, id: int): (r: seq<Station>)
    ensures |r| <= |s|
    ensures forall x :: x in r <==> x in s && x.id != id
    ensures forall x :: multiset(r)[x] == if x.id != id then multiset(s)[x] else 0
  {
    if s == [] then []
    else
      var rest := WithoutId(s[1..], id);
      assert s == [s[0]] + s[1..];
      assert multiset(s) == multiset{s[0]} + multiset(s[1..]);
      if s[0].id != id then
        assert multiset([s[0]] + rest) == multiset{s[0]} + multiset(rest);
        [s[0]] + rest
      else rest
  }

  /** `a` is obtained from `b` by deleting elements: matching greedily from the front is complete for subsequences. */
  ghost predicate IsSubsequence<T>(a: seq<T>, b: seq<T>)
    decreases |b|
  {
    if a == [] then true
    else if b == [] then false
    else if a[0] == b[0] then IsSubsequence(a[1..], b[1..])
    else IsSubsequence(a, b[1..])
  }

  /** Deleting keeps the survivors in their original relative order. */
  lemma {:induction false} WithoutIdIsSubsequence(s: seq<Station>, id: int)
    ensures IsSubsequence(WithoutId(s, id), s)
  {
    if s != [] {
      WithoutIdIsSubsequence(s[1..], id);
      var rest := WithoutId(s[1..], id);
      if s[0].id != id {
        assert WithoutId(s, id) == [s[0]] + rest;
        assert ([s[0]] + rest)[1..] == rest;
      } else if rest != [] {
        assert rest[0] in rest;
      }
    }
  }

  /** Deleting the same id twice is the same as deleting it once. */
  lemma {:induction false} WithoutIdIdempotent(s: seq<Station>, id: int)
    ensures WithoutId(WithoutId(s, id), id) == WithoutId(s, id)
  {
    if s != [] {
      WithoutIdIdempotent(s[1..], id);
      if s[0].id != id {
        var rest := WithoutId(s[1..], id);
        assert ([s[0]] + rest)[1..] == rest;
      }
    }
  }

  /** Deleting an id that no station has leaves the list as it was. */
  lemma {:induction false} WithoutAbsentIdUnchanged(s: seq<Station>, id: int)
    requires forall i :: 0 <= i < |s| ==> s[i].id != id
    ensures WithoutId(s, id) == s
  {
    if s != [] {
      WithoutAbsentIdUnchanged(s[1..], id);
      assert [s[0]] + s[1..] == s;
    }
  }

  /** The slice's reducer: the new state after one action. */
  function Reduce(s: SliceState, a: Action): (r: SliceState)
    ensures a.IsPending() ==> r.isLoading && r.errorMessage == "" && r.stations == s.stations
    ensures a.IsResolution() ==> !r.isLoading
    ensures a.IsRejected() ==> r.errorMessage == a.error.errorMessage && r.stations == s.stations
    ensures a.IsFulfilled() ==> r.errorMessage == s.errorMessage
    ensures a.LoadStationsFulfilled? ==> r.stations == a.loaded
    ensures a.AddStationFulfilled? ==> |r.stations| == |s.stations| + 1 && r.stations[0] == a.added && r.stations[1..] == s.stations
    ensures a.DeleteStationFulfilled? ==> forall x :: x in r.stations <==> x in s.stations && x.id != a.deletedId
    ensures a.DeleteStationFulfilled? ==>
      forall x :: multiset(r.stations)[x] == if x.id != a.deletedId then multiset(s.stations)[x] else 0
    ensures a.ClearStations? ==> r == InitialState
  {
    match a
    case ClearStations => InitialState
    case LoadStationsPending => s.(isLoading := true, errorMessage := "")
    case LoadStationsFulfilled(loaded) => s.(isLoading := false, stations := loaded)
    case LoadStationsRejected(e) => s.(isLoading := false, errorMessage := e.errorMessage)
    case AddStationPending => s.(isLoading := true, errorMessage := "")
    case AddStationFulfilled(added) => s.(isLoading := false, stations := [added] + s.stations)
    case AddStationRejected(e) => s.(isLoading := false, errorMessage := e.errorMessage)
    case DeleteStationPending => s.(isLoading := true, errorMessage := "")
    case DeleteStationFulfilled(id) => s.(isLoading := false, stations := WithoutId(s.stations, id))
    case DeleteStationRejected(e) => s.(isLoading := false, errorMessage := e.errorMessage)
  }

  /** The state after the actions are dispatched in order. */
  function Apply(s: SliceState, actions: seq<Action>): SliceState
    decreases |actions|
  {
    if actions == [] then s else Apply(Reduce(s, actions[0]), actions[1..])
  }

  /** Dispatching one more action reduces the state reached so far. */
  lemma {:induction false} ApplyAppend(s: SliceState, actions: seq<Action>, a: Action)
    ensures Apply(s, actions + [a]) == Reduce(Apply(s, actions), a)
    decreases |actions|
  {
    if actions == [] {
      assert [] + [a] == [a];
    } else {
      assert (actions + [a])[1..] == actions[1..] + [a];
      ApplyAppend(Reduce(s, actions[0]), actions[1..], a);
    }
  }

  /** Whatever ran before, the slice is not loading once the last dispatched request has resolved. */
  lemma ResolutionEndsLoading(s: SliceState, actions: seq<Action>, last: Action)
    requires last.IsResolution() || last.ClearStations?
    ensures !Apply(s, actions + [last]).isLoading
  {
    ApplyAppend(s, actions, last);
  }

  /** Dispatching two runs one after the other is dispatching their concatenation. */
  lemma {:induction false} ApplyConcat(s: SliceState, first: seq<Action>, second: seq<Action>)
    ensures Apply(s, first + second) == Apply(Apply(s, first), second)
    decreases |first|
  {
    if first == [] {
      assert [] + second == second;
    } else {
      assert (first + second)[1..] == first[1..] + second;
      ApplyConcat(Reduce(s, first[0]), first[1..], second);
    }
  }

  /**
   * Overlapping loads: whatever came before, the stations are those of the load
   * fulfilled last, as long as nothing after it fulfils another request or clears the slice.
   */
  lemma LastLoadWins(s: SliceState, before: seq<Action>, loaded: seq<Station>, after: seq<Action>)
    requires forall i :: 0 <= i < |after| ==> !after[i].IsFulfilled() && !after[i].ClearStations?
    ensures Apply(s, before + [LoadStationsFulfilled(loaded)] + after).stations == loaded
  {
    var load := LoadStationsFulfilled(loaded);
    ApplyConcat(s, before + [load], after);
    ApplyAppend(s, before, load);
    StationsChangeOnlyOnFulfilled(Apply(s, before + [load]), after);
  }

  /** After a pending case, no error shows until some request is rejected. */
  lemma {:induction false} ErrorClearedUntilRejected(s: SliceState, pending: Action, rest: seq<Action>)
    requires pending.IsPending()
    requires forall i :: 0 <= i < |rest| ==> !rest[i].IsRejected()
    ensures Apply(s, [pending] + rest).errorMessage == ""
    decreases |rest|
  {
    var t := Reduce(s, pending);
    assert ([pending] + rest)[1..] == rest;
    ClearedErrorStaysCleared(t, rest);
  }

  lemma {:induction false} ClearedErrorStaysCleared(s: SliceState, actions: seq<Action>)
    requires s.errorMessage == ""
    requires forall i :: 0 <= i < |actions| ==> !actions[i].IsRejected()
    ensures Apply(s, actions).errorMessage == ""
    decreases |actions|
  {
    if actions != [] {
      ClearedErrorStaysCleared(Reduce(s, actions[0]), actions[1..]);
    }
  }

  /** Only fulfilled requests and `clearStations` change the station list. */
  lemma {:induction false} StationsChangeOnlyOnFulfilled(s: SliceState, actions: seq<Action>)
    requires forall i :: 0 <= i < |actions| ==> !actions[i].IsFulfilled() && !actions[i].ClearStations?
    ensures Apply(s, actions).stations == s.stations
    decreases |actions|
  {
    if actions != [] {
      StationsChangeOnlyOnFulfilled(Reduce(s, actions[0]), actions[1..]);
    }
  }

  /** The slice's draft state; each method is one case reducer assigning the draft's fields. */
  class StationState {
    var isLoading: bool
    var errorMessage: string
    var stations: seq<Station>

    function State(): SliceState
      reads this
    {
      SliceState(isLoading, errorMessage, stations)
    }

    constructor ()
      ensures State() == InitialState
    {
      isLoading := false;
      errorMessage := "";
      stations := [];
    }

    method ClearStations()
      modifies this
      ensures State() == Reduce(old(State()), Action.ClearStations)
    {
      isLoading, errorMessage, stations := InitialState.isLoading, InitialState.errorMessage, InitialState.stations;
    }

    method LoadStationsPending()
      modifies this
      ensures State() == Reduce(old(State()), Action.LoadStationsPending)
    {
      isLoading := true;
      errorMessage := "";
    }

    method LoadStationsFulfilled(payload: seq<Station>)
      modifies this
      ensures State() == Reduce(old(State()), Action.LoadStationsFulfilled(payload))
    {
      isLoading := false;
      stations := payload;
    }

    method LoadStationsRejected(payload: ErrorMessageResponse)
      modifies this
      ensures State() == Reduce(old(State()), Action.LoadStationsRejected(payload))
    {
      isLoading := false;
      errorMessage := payload.errorMessage;
    }

    method AddStationPending()
      modifies this
      ensures State() == Reduce(old(State()), Action.AddStationPending)
    {
      isLoading := true;
      errorMessage := "";
    }

    method AddStationFulfilled(payload: Station)
      modifies this
      ensures State() == Reduce(old(State()), Action.AddStationFulfilled(payload))
    {
      isLoading := false;
      stations := [payload] + stations;
    }

    method AddStationRejected(payload: ErrorMessageResponse)
      modifies this
      ensures State() == Reduce(old(State()), Action.AddStationRejected(payload))
    {
      isLoading := false;
      errorMessage := payload.errorMessage;
    }

    method DeleteStationPending()
      modifies this
      ensures State() == Reduce(old(State()), Action.DeleteStationPending)
    {
      isLoading := true;
      errorMessage := "";
    }

    method DeleteStationFulfilled(payload: int)
      modifies this
      ensures State() == Reduce(old(State()), Action.DeleteStationFulfilled(payload))
    {
      isLoading := false;
      stations := WithoutId(stations, payload);
    }

    method DeleteStationRejected(payload: ErrorMessageResponse)
      modifies this
      ensures State() == Reduce(old(State()), Action.DeleteStationRejected(payload))
    {
      isLoading := false;
      errorMessage := payload.errorMessage;
    }
  }
}
