/** The process configuration the two endpoints read (`process.env`).
    It is fixed for the lifetime of the process, so it is modelled as an
    immutable value passed to every request. */
module Env {

  datatype Option<+T> = None | Some(value: T)

  /** `CLIENT_SHARED_KEY` and `GITHUB_TOKEN`; an environment variable is
      either a string or unset. */
  datatype Config = Config(clientSharedKey: Option<string>, githubToken: Option<string>)
}
