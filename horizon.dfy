/**
 * The funding ("friendbot") step of `Stelar.get_wallet`: which gateway URLs
 * are requested, in which order, and which exception escapes.
 *
 * The HTTP call itself is not modelled: `net` says, for each request, whether
 * the server answered (any status code: `requests.get` does not raise on an
 * error status) or which exception the call raised. Each URL is requested at
 * most once per funding step, so any combination of outcomes is some `net`.
 */
module Horizon {
  import opened Wrappers

  /** The exceptions `requests.get` can raise, as far as `get_wallet` tells
      them apart. A connect timeout is a ConnectionError in `requests`; a read
      timeout or an invalid URL is not. */
  datatype Exception = ConnectionError | OtherError

  /** The outcome of one HTTP call. */
  datatype Transport = Responded | Raised(error: Exception)

  /** A GET request: the URL and the timeout in seconds (`None`: wait forever). */
  datatype Request = Get(url: string, timeout: Option<nat>)

  /** The requests issued, in order, and the outcome that ends the step. */
  datatype Funding = Funding(sent: seq<Request>, outcome: Transport)

  /** The timeout given to the local sandbox attempt. */
  const DockerTimeout: nat := 2

  /** The funding step: with `local`, try the local sandbox with a short
      timeout and fall back to the main gateway only when that attempt raised
      a ConnectionError; otherwise request the main gateway once. The outcome
      is that of the last request: its exception, if any, escapes. */
  function Fund(local: bool, dockerHorizon: string, mainHorizon: string, publicKey: string,
                net: Request -> Transport): (f: Funding)
    ensures 1 <= |f.sent| <= 2
    ensures f.sent[0] == if local then Get(dockerHorizon + publicKey, Some(DockerTimeout))
                         else Get(mainHorizon + publicKey, None)
    ensures |f.sent| == 2 <==> local && net(f.sent[0]) == Raised(ConnectionError)
    ensures |f.sent| == 2 ==> f.sent[1] == Get(mainHorizon + publicKey, None)
    ensures f.outcome == net(f.sent[|f.sent| - 1])
  {
    if local then
      var docker := Get(dockerHorizon + publicKey, Some(DockerTimeout));
      if net(docker) == Raised(ConnectionError) then
        var main := Get(mainHorizon + publicKey, None);
        Funding([docker, main], net(main))
      else
        Funding([docker], net(docker))
    else
      var main := Get(mainHorizon + publicKey, None);
      Funding([main], net(main))
  }

  /** The main gateway is requested at most once, and it is requested at all
      exactly when the step is remote or the sandbox was unreachable. */
  lemma MainRequestedAtMostOnce(local: bool, dockerHorizon: string, mainHorizon: string, publicKey: string,
                                net: Request -> Transport)
    ensures var f := Fund(local, dockerHorizon, mainHorizon, publicKey, net);
            var main := Get(mainHorizon + publicKey, None);
            |set i | 0 <= i < |f.sent| && f.sent[i] == main| <= 1
            && (main in f.sent <==> !local || net(f.sent[0]) == Raised(ConnectionError))
  {
    var f := Fund(local, dockerHorizon, mainHorizon, publicKey, net);
    var main := Get(mainHorizon + publicKey, None);
    var hits := set i | 0 <= i < |f.sent| && f.sent[i] == main;
    if local {
      assert f.sent[0] != main;
      assert hits == if |f.sent| == 2 then {1} else {};
    } else {
      assert hits == {0};
    }
  }
}
