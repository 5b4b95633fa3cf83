/**
 * The checkout vocabulary shared by the SCM code of every generation of the tool:
 * `CheckoutError`, and the `ScmProvier` interface a version-control provider offers.
 */
module Scm {
  import opened Wrappers
  import opened RustPath

  datatype CheckoutError = CheckoutError(error: string)

  /** An `ScmProvier`: whether it claims a URL, the directory name it suggests for one,
      and what checking out into a destination gives (a panic, an error or an exit
      code). */
  datatype ScmProvider = ScmProvider(
    handlesUrl: string -> bool,
    suggestedCheckoutName: string -> Fallible<Option<string>>,
    doCheckout: (string, PathBuf) -> Fallible<Result<int, CheckoutError>>)

  /** `providers.into_iter().find(|x| x.handles_url(url))`, as a position. */
  function FindProvider(providers: seq<ScmProvider>, url: string): (r: Option<nat>)
    ensures r.Some? ==> r.value < |providers| && providers[r.value].handlesUrl(url)
                        && forall j :: 0 <= j < r.value ==> !providers[j].handlesUrl(url)
    ensures r.None? <==> forall j :: 0 <= j < |providers| ==> !providers[j].handlesUrl(url)
    decreases |providers|
  {
    if |providers| == 0 then None
    else if providers[0].handlesUrl(url) then Some(0)
    else match FindProvider(providers[1..], url)
      case None => None
      case Some(j) => Some(j + 1)
  }

  /** `providers.into_iter().any(|x| x.handles_url(url))`. */
  predicate AnyHandles(providers: seq<ScmProvider>, url: string) {
    exists j :: 0 <= j < |providers| && providers[j].handlesUrl(url)
  }

  /** Providers that do not claim the URL are passed over: putting them in front of the
      list changes nothing about which provider is found. */
  lemma {:induction false} FindSkipsNonHandlers(skipped: seq<ScmProvider>, rest: seq<ScmProvider>, url: string)
    requires forall j :: 0 <= j < |skipped| ==> !skipped[j].handlesUrl(url)
    ensures FindProvider(skipped + rest, url) ==
              match FindProvider(rest, url)
              case None => None
              case Some(i) => Some(i + |skipped|)
    decreases |skipped|
  {
    if |skipped| > 0 {
      assert (skipped + rest)[1..] == skipped[1..] + rest;
      FindSkipsNonHandlers(skipped[1..], rest, url);
    } else {
      assert skipped + rest == rest;
    }
  }
}
