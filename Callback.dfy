/**
 * The part of the OAuth redirect handler that reads the redirect: it
 * collects the query pairs in order and takes the authorization code and
 * the CSRF state off the front by position, as two `Vec::remove(0)` calls.
 */
module Callback {
  import opened Wrappers

  /** One decoded `name=value` pair of the query string. */
  datatype QueryPair = QueryPair(name: string, value: string)

  /** What the handler hands to the waiting authentication flow. */
  datatype Redirect = Redirect(authCode: string, csrfState: string)

  /** `Vec::remove(0)`: the first element and the rest, or `None` where the call panics. */
  function RemoveFirst<T>(v: seq<T>): (r: Option<(T, seq<T>)>)
    ensures r.Some? <==> |v| > 0
    ensures r.Some? ==> [r.value.0] + r.value.1 == v
  {
    if |v| == 0 then None else Some((v[0], v[1..]))
  }

  /** The reading of a redirect: the values of its first two pairs, whatever their names. */
  function RedirectOf(pairs: seq<QueryPair>): Option<Redirect>
  {
    if |pairs| < 2 then None else Some(Redirect(pairs[0].value, pairs[1].value))
  }

  /** The handler's extraction; `None` means the handler panics (fewer than two pairs). */
  method ExtractRedirect(pairs: seq<QueryPair>) returns (r: Option<Redirect>)
    ensures r.Some? <==> |pairs| >= 2
    ensures r.Some? ==> r.value.authCode == pairs[0].value && r.value.csrfState == pairs[1].value
    ensures r == RedirectOf(pairs)
  {
    var queries := pairs;
    var first := RemoveFirst(queries);
    if first.None? {
      return None;
    }
    var authCode := first.value.0.value;
    queries := first.value.1;
    var second := RemoveFirst(queries);
    if second.None? {
      return None;
    }
    var csrfState := second.value.0.value;
    queries := second.value.1;
    return Some(Redirect(authCode, csrfState));
  }

  /** Names play no part: two queries with the same values in the same order read the same. */
  lemma NamesIgnored(p: seq<QueryPair>, q: seq<QueryPair>)
    requires |p| == |q|
    requires forall i :: 0 <= i < |p| ==> p[i].value == q[i].value
    ensures RedirectOf(p) == RedirectOf(q)
  {
  }

  /** Pairs after the second are discarded. */
  lemma TrailingPairsDiscarded(p: seq<QueryPair>, extra: seq<QueryPair>)
    requires |p| >= 2
    ensures RedirectOf(p + extra) == RedirectOf(p)
  {
    assert (p + extra)[0] == p[0] && (p + extra)[1] == p[1];
  }

  /** Order is everything: a redirect that lists `state` before `code` hands the state over as the code. */
  lemma StateFirstSwapsRoles(code: string, state: string)
    ensures RedirectOf([QueryPair("state", state), QueryPair("code", code)]) == Some(Redirect(state, code))
  {
  }
}
