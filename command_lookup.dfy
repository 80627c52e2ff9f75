/** Finding the cleanup command among the IDE's commands, once, at initialisation. */
module CommandLookup {
  import opened Host

  /** The names under which the cleanup command may be registered. */
  const CleanupCommandNames: seq<string> := ["ReSharper.ReSharper_SilentCleanupCode", "ReSharper_SilentCleanupCode"]

  /**
   * The first command, in the IDE's enumeration order, whose name is one of
   * the known names; null when none is.
   */
  function FindCleanupCommand(commands: seq<Command>): (r: Command?)
    ensures r == null <==> forall i :: 0 <= i < |commands| ==> commands[i].name !in CleanupCommandNames
    ensures r != null ==> r.name in CleanupCommandNames
    ensures r != null ==>
              exists i :: 0 <= i < |commands| && commands[i] == r &&
                          forall j :: 0 <= j < i ==> commands[j].name !in CleanupCommandNames
  {
    if commands == [] then null
    else if commands[0].name in CleanupCommandNames then commands[0]
    else FindCleanupCommand(commands[1..])
  }
}
