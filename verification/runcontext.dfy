/** The parts of a run's effective configuration that suggestion generators read. */
module Runcontext {
  import opened Wrappers

  /** `defaultRepo` is the `--default-repo` option: `None` when the flag was
      not given, `Some("")` when it was given an empty value.
      `globalConfig` is the path of the global configuration file. */
  datatype RunContext = RunContext(defaultRepo: Option<string>, globalConfig: string)

  /** The zero value a run-context variable holds before anything is stored. */
  const Zero: RunContext := RunContext(None, "")
}
