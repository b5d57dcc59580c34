/** The logger and level tables that classify records. */
module Loggers {
  import opened Text

  const CommandLoggers: set<string> := {"cmd", "setup", ""}
  const RuntimeLoggers: set<string> := {"controller-runtime"}
  const ControllerLoggers: set<string> := {"controller", "baremetalhost", "controllers"}
  const ProvisionerLoggers: set<string> := {"baremetalhost_ironic", "provisioner"}

  const InfoLevel: string := "info"
  const ErrorLevel: string := "error"

  /**
   * `name.split('.', 1)[0]`: the logger name up to its first dot. The result is the longest
   * prefix of `name` without a dot.
   */
  function LoggerPrefix(name: string): (p: string)
    ensures p <= name && '.' !in p
    ensures |p| < |name| ==> name[|p|] == '.'
  {
    SplitOnce(name, '.')[0]
  }

  /** Sub-loggers such as `controller.baremetalhost` are classified by their first component. */
  lemma {:induction false} LoggerPrefixOf(head: string, rest: string)
    requires '.' !in head
    ensures LoggerPrefix(head + "." + rest) == head
  {
    SplitOnceOf(head, '.', rest);
  }
}
