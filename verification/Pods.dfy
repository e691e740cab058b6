/** What both controllers and the webhook put into containers. */
module Pods {

  datatype EnvValue = Plain(text: string) | SecretKey(secret: string, key: string) | OtherSource(text: string)

  datatype EnvVar = EnvVar(name: string, value: EnvValue)

  /** The command of the default pre-stop hook. */
  const STOP_HOOK := "/bin/sh -c ray stop"
}
