/** Failure-carrying values, and the walk over a sequence that stops at the
    first failure: the shape of a Python loop or list comprehension whose body
    may raise. */
module Results {

  datatype Option<+T> = None | Some(value: T)

  datatype Result<+T, +E> = Ok(value: T) | Err(error: E)

  /** Applies `f` to every element in order; the first element whose result is
      an error ends the walk with that error, as an exception raised inside
      `[f(x) for x in s]` does. */
  function MapAll<A, B, E>(s: seq<A>, f: A -> Result<B, E>): (r: Result<seq<B>, E>)
    ensures r.Ok? <==> forall i :: 0 <= i < |s| ==> f(s[i]).Ok?
    ensures r.Ok? ==> |r.value| == |s| && forall i :: 0 <= i < |s| ==> r.value[i] == f(s[i]).value
    ensures r.Err? ==> exists k :: 0 <= k < |s| && f(s[k]) == Err(r.error) &&
                                   forall j :: 0 <= j < k ==> f(s[j]).Ok?
  {
    if s == [] then Ok([])
    else
      var init := s[..|s| - 1];
      match MapAll(init, f)
      case Err(e) =>
        assert forall j :: 0 <= j < |init| ==> init[j] == s[j];
        Err(e)
      case Ok(done) =>
        assert forall j :: 0 <= j < |init| ==> init[j] == s[j];
        match f(s[|s| - 1])
        case Err(e) => Err(e)
        case Ok(b) => Ok(done + [b])
  }

  /** Once a prefix has failed, the whole walk fails with the same error: the
      elements after the failing one are never looked at. */
  lemma {:induction false} MapAllStopsAtFailure<A, B, E>(s: seq<A>, f: A -> Result<B, E>, i: nat)
    requires i <= |s|
    requires MapAll(s[..i], f).Err?
    ensures MapAll(s, f) == MapAll(s[..i], f)
    decreases |s| - i
  {
    if i == |s| {
      assert s[..i] == s;
    } else {
      var init := s[..|s| - 1];
      assert init[..i] == s[..i];
      MapAllStopsAtFailure(init, f, i);
    }
  }

  /** One more successful element extends a successful walk by its result. */
  lemma MapAllStep<A, B, E>(s: seq<A>, f: A -> Result<B, E>, i: nat)
    requires i < |s|
    requires MapAll(s[..i], f).Ok?
    ensures f(s[i]).Ok? ==> MapAll(s[..i + 1], f) == Ok(MapAll(s[..i], f).value + [f(s[i]).value])
    ensures f(s[i]).Err? ==> MapAll(s[..i + 1], f) == Err(f(s[i]).error)
  {
    assert s[..i + 1][..i] == s[..i];
  }
}
