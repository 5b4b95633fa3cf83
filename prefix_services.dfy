/**
 * `lib/core/src/libs/scm/services.rs`, and `src/inc/libs/scm/services.rs`, which is the
 * same code without the logger: the checkout services of the older tools. GitHub is
 * built in (ssh URLs only); every binary named `inc-checkout-service-<name>` is a plugin
 * service `<name>`, inserted over whatever had that name.
 *
 * Running a plugin is an input, `runPlugin`: the trimmed output, or the error message.
 */
module PrefixServices {
  import opened Wrappers
  import opened RustStr
  import opened RustPath
  import opened Discovery
  import opened Scm

  datatype ScmService = GitHub | External(binary: SystemBinary, serviceName: string)

  /** `ScmService::name`. */
  function Name(s: ScmService): string {
    match s
    case GitHub => "github"
    case External(_, n) => n
  }

  /** `format!("{}-checkout-service-", BASE_APPLICATION_NAME)` */
  const ServicePrefix: string := "inc-checkout-service-"

  /** The service name a binary registers, if its name carries the prefix. */
  function ServiceName(b: SystemBinary): (r: Option<string>)
    ensures r.Some? <==> StartsWith(b.name, ServicePrefix)
    ensures r.Some? ==> b.name == ServicePrefix + r.value
  {
    if StartsWith(b.name, ServicePrefix) then
      assert b.name == b.name[..|ServicePrefix|] + b.name[|ServicePrefix|..];
      Some(b.name[|ServicePrefix|..])
    else None
  }

  /** The map after GitHub and then each binary, in order, have been considered. */
  function Registered(binaries: seq<SystemBinary>): (r: map<string, ScmService>)
    ensures "github" in r
    decreases |binaries|
  {
    if |binaries| == 0 then map["github" := GitHub]
    else
      var last := binaries[|binaries| - 1];
      var m := Registered(binaries[..|binaries| - 1]);
      match ServiceName(last)
      case Some(n) => m[n := External(last, n)]
      case None => m
  }

  /** `build_service_map`. */
  method BuildServiceMap(subCommands: seq<SystemBinary>) returns (result: map<string, ScmService>)
    ensures result == Registered(subCommands)
  {
    result := map[];
    result := result["github" := GitHub];
    var i := 0;
    while i < |subCommands|
      invariant 0 <= i <= |subCommands|
      invariant result == Registered(subCommands[..i])
    {
      var externalSource := subCommands[i];
      assert subCommands[..i + 1][..i] == subCommands[..i];
      if StartsWith(externalSource.name, ServicePrefix) {
        var serviceName := externalSource.name[|ServicePrefix|..];
        result := result[serviceName := External(externalSource, serviceName)];
      }
      i := i + 1;
    }
    assert subCommands[..|subCommands|] == subCommands;
  }

  /** The services are GitHub and one per prefixed binary, keyed by the rest of its name;
      binaries without the prefix add nothing. */
  lemma {:induction false} RegisteredKeys(binaries: seq<SystemBinary>)
    ensures Registered(binaries).Keys ==
              {"github"} + set b | b in binaries && StartsWith(b.name, ServicePrefix) :: b.name[|ServicePrefix|..]
    decreases |binaries|
  {
    if |binaries| > 0 {
      var init := binaries[..|binaries| - 1];
      RegisteredKeys(init);
      assert forall b :: b in binaries <==> b in init || b == binaries[|binaries| - 1];
    }
  }

  /** Every service answers to the name it is registered under. */
  lemma {:induction false} NameIsKey(binaries: seq<SystemBinary>)
    ensures forall k :: k in Registered(binaries) ==> Name(Registered(binaries)[k]) == k
    decreases |binaries|
  {
    if |binaries| > 0 {
      NameIsKey(binaries[..|binaries| - 1]);
    }
  }

  /** A plugin binary named `inc-checkout-service-github`, the last of that name,
      replaces the built-in GitHub service. */
  lemma {:induction false} PluginOverridesGitHub(binaries: seq<SystemBinary>, i: nat)
    requires i < |binaries| && binaries[i].name == ServicePrefix + "github"
    requires forall j :: i < j < |binaries| ==> binaries[j].name != binaries[i].name
    ensures Registered(binaries)["github"] == External(binaries[i], "github")
    decreases |binaries|
  {
    assert ServiceName(binaries[i]) == Some("github") by {
      assert StartsWith(binaries[i].name, ServicePrefix);
      assert binaries[i].name[|ServicePrefix|..] == "github";
    }
    if i < |binaries| - 1 {
      var last := binaries[|binaries| - 1];
      PluginOverridesGitHub(binaries[..|binaries| - 1], i);
      if ServiceName(last).Some? {
        assert ServiceName(last).value != "github";
      }
    }
  }

  /** `generate_url`: GitHub always gives an ssh URL; a plugin is run with what the user
      typed as its only argument, and a failure becomes a checkout error. */
  function GenerateUrl(service: ScmService, userInput: string,
                       runPlugin: (Path, seq<string>) -> Result<string, string>): (r: Result<string, CheckoutError>)
    ensures service == GitHub ==> r == Success("git@github.com:" + userInput + ".git")
    ensures service.External? && runPlugin(service.binary.path, [userInput]).Success? ==>
              r == Success(runPlugin(service.binary.path, [userInput]).value)
    ensures service.External? && runPlugin(service.binary.path, [userInput]).Failure? ==>
              r == Failure(CheckoutError(runPlugin(service.binary.path, [userInput]).error))
  {
    match service
    case GitHub => Success("git@github.com:" + userInput + ".git")
    case External(binary, _) =>
      match runPlugin(binary.path, [userInput])
      case Success(expr) => Success(expr)
      case Failure(value) => Failure(CheckoutError(value))
  }
}
