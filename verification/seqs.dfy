/** Sequence helpers shared by the extraction and recreation models. */
module Seqs {
  import opened Wrappers

  /** The list comprehension `[f(x) for x in s]`. */
  function Map<A, B>(f: A -> B, s: seq<A>): (r: seq<B>)
    ensures |r| == |s|
    ensures forall i :: 0 <= i < |s| ==> r[i] == f(s[i])
  {
    seq(|s|, i requires 0 <= i < |s| => f(s[i]))
  }

  lemma MapAppend<A, B>(f: A -> B, s: seq<A>, t: seq<A>)
    ensures Map(f, s + t) == Map(f, s) + Map(f, t)
  {
    assert forall i :: 0 <= i < |s + t| ==> Map(f, s + t)[i] == (Map(f, s) + Map(f, t))[i];
  }

  lemma MapSnoc<A, B>(f: A -> B, s: seq<A>, x: A)
    ensures Map(f, s + [x]) == Map(f, s) + [f(x)]
  {
    assert forall i :: 0 <= i < |s| + 1 ==> Map(f, s + [x])[i] == (Map(f, s) + [f(x)])[i];
  }

  lemma AppendIndex<A>(s: seq<A>, t: seq<A>, i: nat)
    requires i < |t|
    ensures (s + t)[|s| + i] == t[i]
  {
  }

  /** Applies a step that may raise to every element in order; the first failure is the result. */
  function MapResult<A, B, E>(f: A -> Result<B, E>, s: seq<A>): (r: Result<seq<B>, E>)
    ensures r.Ok? ==> |r.value| == |s|
  {
    if s == [] then Ok([])
    else
      match MapResult(f, s[..|s| - 1])
      case Err(e) => Err(e)
      case Ok(prefix) =>
        match f(s[|s| - 1])
        case Err(e) => Err(e)
        case Ok(y) => Ok(prefix + [y])
  }

  /** A step that succeeds on every element yields the elementwise results, in order. */
  lemma {:induction false} MapResultAllOk<A, B, E>(f: A -> Result<B, E>, s: seq<A>)
    requires forall i :: 0 <= i < |s| ==> f(s[i]).Ok?
    ensures MapResult(f, s).Ok?
    ensures forall i :: 0 <= i < |s| ==> MapResult(f, s).value[i] == f(s[i]).value
  {
    if s != [] {
      MapResultAllOk(f, s[..|s| - 1]);
    }
  }

  /** MapResult fails exactly when some element's step fails. */
  lemma {:induction false} MapResultErr<A, B, E>(f: A -> Result<B, E>, s: seq<A>)
    ensures MapResult(f, s).Err? <==> exists i :: 0 <= i < |s| && f(s[i]).Err?
  {
    if s != [] {
      var init := s[..|s| - 1];
      MapResultErr(f, init);
      if exists i :: 0 <= i < |init| && f(init[i]).Err? {
        var i :| 0 <= i < |init| && f(init[i]).Err?;
        assert f(s[i]).Err?;
      }
      if exists i :: 0 <= i < |s| && f(s[i]).Err? {
        var i :| 0 <= i < |s| && f(s[i]).Err?;
        if i < |s| - 1 { assert f(init[i]).Err?; }
      }
    }
  }

  /** A failed MapResult fails with the error of one element's step. */
  lemma {:induction false} MapResultErrFrom<A, B, E>(f: A -> Result<B, E>, s: seq<A>)
    requires MapResult(f, s).Err?
    ensures exists i :: 0 <= i < |s| && f(s[i]) == Err(MapResult(f, s).error)
  {
    var init := s[..|s| - 1];
    if MapResult(f, init).Err? {
      MapResultErrFrom(f, init);
      var i :| 0 <= i < |init| && f(init[i]) == Err(MapResult(f, init).error);
      assert s[i] == init[i];
    }
  }

  /** A successful MapResult succeeded on every element, and holds each element's result. */
  lemma MapResultOk<A, B, E>(f: A -> Result<B, E>, s: seq<A>)
    requires MapResult(f, s).Ok?
    ensures forall i :: 0 <= i < |s| ==> f(s[i]).Ok? && MapResult(f, s).value[i] == f(s[i]).value
  {
    MapResultErr(f, s);
    MapResultAllOk(f, s);
  }

  /** Extending the input by one element extends a successful result by that element's step. */
  lemma MapResultSnoc<A, B, E>(f: A -> Result<B, E>, s: seq<A>, k: nat)
    requires k < |s|
    ensures MapResult(f, s[..k + 1]) ==
      match MapResult(f, s[..k])
      case Err(e) => Err(e)
      case Ok(prefix) =>
        match f(s[k])
        case Err(e) => Err(e)
        case Ok(y) => Ok(prefix + [y])
  {
    assert s[..k + 1][..k] == s[..k];
  }

  lemma MapResultSingle<A, B, E>(f: A -> Result<B, E>, x: A)
    ensures MapResult(f, [x]) == match f(x) case Err(e) => Err(e) case Ok(y) => Ok([y])
  {
    assert [x][..0] == [] && [x][0] == x;
    assert MapResult(f, []) == Ok([]);
    if f(x).Ok? {
      assert [] + [f(x).value] == [f(x).value];
    }
  }

  /** When the prefix before position k succeeds and the step fails at k, the whole MapResult
      fails with that step's error. */
  lemma {:induction false} MapResultFirstErr<A, B, E>(f: A -> Result<B, E>, s: seq<A>, k: nat)
    requires k < |s| && MapResult(f, s[..k]).Ok? && f(s[k]).Err?
    ensures MapResult(f, s) == Err(f(s[k]).error)
  {
    if |s| == k + 1 {
      assert s[..k] == s[..|s| - 1];
    } else {
      assert s[..|s| - 1][..k] == s[..k];
      assert s[..|s| - 1][k] == s[k];
      MapResultFirstErr(f, s[..|s| - 1], k);
    }
  }

  /** Concatenation is associative; stated once so that callers need not make Z3 find it. */
  lemma ConcatAssoc<T>(x: seq<T>, y: seq<T>, z: seq<T>)
    ensures (x + y) + z == x + (y + z)
  {
  }
}
