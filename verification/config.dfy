/** The persisted global configuration, at its boundary with the engine. */
module Config {
  import opened Wrappers

  /** The per-kube-context configuration entry; only its default repository is read. */
  datatype ContextConfig = ContextConfig(defaultRepo: string)

  /** Loads the entry for the current kube context from the configuration
      file at the given path. Reading and parsing the file may fail. */
  type Loader = string -> Result<ContextConfig, string>
}
