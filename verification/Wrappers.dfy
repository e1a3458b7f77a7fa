module Wrappers {
  datatype Option<+T> = None | Some(value: T)

  /** The data of a secret or a ConfigMap, and the overrides of a spec. */
  type Data = map<string, string>
}
