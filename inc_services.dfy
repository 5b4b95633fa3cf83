/**
 * `inc-lib/src/libs/scm/services.rs`: the checkout services of the newest tool. GitHub
 * and Bitbucket are built in; every command whose parent is `inc-checkout-service` is a
 * plugin service named after the command, and a plugin replaces a built-in of the same
 * name. A service turns what the user typed into a URL, over ssh or https.
 *
 * Running a plugin is an input, `runPlugin`: what `execute_external_command_for_output`
 * (see `Executor`) gives for the binary, the arguments and the extra environment.
 */
module IncServices {
  import opened Wrappers
  import opened RustPath
  import opened Discovery
  import opened Command
  import opened Scm
  import opened Executor

  datatype ScmService = GitHub | BitBucket | External(binary: SystemBinary, serviceName: string)

  /** `ScmService::name`. */
  function Name(s: ScmService): string {
    match s
    case GitHub => "github"
    case BitBucket => "bitbucket"
    case External(_, n) => n
  }

  /** `format!("{}-checkout-service", BASE_APPLICATION_NAME)` */
  const ServiceParent: string := "inc-checkout-service"

  /** The map after the built-ins and then each plugin, in order, have been inserted. */
  function Registered(plugins: seq<CommandEntry>): (r: map<string, ScmService>)
    ensures "github" in r && "bitbucket" in r
    decreases |plugins|
  {
    if |plugins| == 0 then map["github" := GitHub, "bitbucket" := BitBucket]
    else
      var last := plugins[|plugins| - 1];
      Registered(plugins[..|plugins| - 1])[last.name := External(last.binary, last.name)]
  }

  /** `build_service_map`. */
  method BuildServiceMap(subCommands: AvailableCommands) returns (result: map<string, ScmService>)
    ensures result == Registered(FindCommandsWithParent(subCommands, ServiceParent))
  {
    result := map[];
    result := result["github" := GitHub];
    result := result["bitbucket" := BitBucket];
    var serviceCommands := FindCommandsWithParent(subCommands, ServiceParent);
    var i := 0;
    while i < |serviceCommands|
      invariant 0 <= i <= |serviceCommands|
      invariant result == Registered(serviceCommands[..i])
    {
      var command := serviceCommands[i];
      assert serviceCommands[..i + 1][..i] == serviceCommands[..i];
      result := result[command.name := External(command.binary, command.name)];
      i := i + 1;
    }
    assert serviceCommands[..|serviceCommands|] == serviceCommands;
  }

  /** The services are the two built-ins and one per plugin name. */
  lemma {:induction false} RegisteredKeys(plugins: seq<CommandEntry>)
    ensures Registered(plugins).Keys == {"github", "bitbucket"} + set e | e in plugins :: e.name
    decreases |plugins|
  {
    if |plugins| > 0 {
      var init := plugins[..|plugins| - 1];
      RegisteredKeys(init);
      assert forall e :: e in plugins <==> e in init || e == plugins[|plugins| - 1];
    }
  }

  /** Every service answers to the name it is registered under. */
  lemma {:induction false} NameIsKey(plugins: seq<CommandEntry>)
    ensures forall k :: k in Registered(plugins) ==> Name(Registered(plugins)[k]) == k
    decreases |plugins|
  {
    if |plugins| > 0 {
      NameIsKey(plugins[..|plugins| - 1]);
    }
  }

  /** The last plugin of a name is the service of that name, even over a built-in. */
  lemma {:induction false} LastPluginWins(plugins: seq<CommandEntry>, i: nat)
    requires i < |plugins|
    requires forall j :: i < j < |plugins| ==> plugins[j].name != plugins[i].name
    ensures plugins[i].name in Registered(plugins)
    ensures Registered(plugins)[plugins[i].name] == External(plugins[i].binary, plugins[i].name)
    decreases |plugins|
  {
    if i < |plugins| - 1 {
      var init := plugins[..|plugins| - 1];
      LastPluginWins(init, i);
    }
  }

  /** A built-in stays when no plugin takes its name. */
  lemma {:induction false} BuiltInKept(plugins: seq<CommandEntry>)
    ensures (forall j :: 0 <= j < |plugins| ==> plugins[j].name != "github") ==> Registered(plugins)["github"] == GitHub
    ensures (forall j :: 0 <= j < |plugins| ==> plugins[j].name != "bitbucket") ==> Registered(plugins)["bitbucket"] == BitBucket
    decreases |plugins|
  {
    if |plugins| > 0 {
      BuiltInKept(plugins[..|plugins| - 1]);
    }
  }

  /** `generate_url`: the built-ins give an ssh or an https URL and never fail; a plugin
      is run with what the user typed as its only argument and `INC_CHECKOUT_SSH` set to
      `TRUE` or `FALSE`, and a failure becomes a checkout error with the same message. */
  function GenerateUrl(service: ScmService, userInput: string, useSsh: bool,
                       runPlugin: (Path, seq<string>, map<string, string>) -> Result<string, CliError>)
    : (r: Result<string, CheckoutError>)
    ensures service == GitHub ==>
              r == Success(if useSsh then "git@github.com:" + userInput + ".git"
                           else "https://github.com/" + userInput + ".git")
    ensures service == BitBucket ==>
              r == Success(if useSsh then "git@bitbucket.org:" + userInput + ".git"
                           else "https://bitbucket.org/" + userInput + ".git")
    ensures service.External? ==>
              var out := runPlugin(service.binary.path, [userInput],
                                   map["INC_CHECKOUT_SSH" := if useSsh then "TRUE" else "FALSE"]);
              && (out.Success? ==> r == Success(out.value))
              && (out.Failure? ==> r == Failure(CheckoutError(out.error.message)))
  {
    match service
    case GitHub =>
      if useSsh then Success("git@github.com:" + userInput + ".git")
      else Success("https://github.com/" + userInput + ".git")
    case BitBucket =>
      if useSsh then Success("git@bitbucket.org:" + userInput + ".git")
      else Success("https://bitbucket.org/" + userInput + ".git")
    case External(binary, _) =>
      var useSshEnv := if useSsh then "TRUE" else "FALSE";
      match runPlugin(binary.path, [userInput], map["INC_CHECKOUT_SSH" := useSshEnv])
      case Success(expr) => Success(expr)
      case Failure(value) => Failure(CheckoutError(value.message))
  }
}
