/**
 * The errors the core can return. `ValidationError` is the closed set of the config
 * validator's seven error kinds, each with exactly its context fields and its message;
 * `Error` collects every other failure the verbs produce or pass through.
 */
module Errors {
  import opened Strings

  datatype ValidationError =
    | WrongConfigName(configName: String, expectedConfigName: String)
    | WrongArchInConfig(configPath: String, arch: String)
    | WrongOutputProbeName(outputProbeName: String, expectedOutputProbeName: String)
    | WrongOutputProbeArch(probe: String, probeArch: String)
    | WrongOutputModuleName(outputModuleName: String, expectedOutputModuleName: String)
    | WrongOutputModuleArch(modulePath: String, moduleArch: String)
    | KernelConfigDataNotBase64
  {
    /** `Error()` of each kind. */
    function Message(): String {
      match this
      case WrongConfigName(n, e) =>
        "config filename is wrong (" + n + "); should be " + e
      case WrongArchInConfig(p, a) =>
        "wrong architecture in config file " + p + ": " + a
      case WrongOutputProbeName(n, e) =>
        "output probe filename is wrong (" + n + "); expected: " + e + ".o"
      case WrongOutputProbeArch(p, a) =>
        "output probe filename has wrong architecture in its path (" + p + "); expected " + a
      case WrongOutputModuleName(n, e) =>
        // The module message also ends in ".o", exactly as the source formats it.
        "output module filename is wrong (" + n + "); expected: " + e + ".o"
      case WrongOutputModuleArch(m, a) =>
        "output module filename has wrong architecture in its path (" + m + "); expected " + a
      case KernelConfigDataNotBase64 =>
        "kernelconfigdata must be a base64 encoded string"
    }
  }

  /** Any error value the modelled operations return. */
  datatype Error =
    | Validation(v: ValidationError)
      // generate: the driverkit builder factory does not know the target
    | UnsupportedTarget(target: String)
      // generate: neither auto mode nor a complete target was given
    | MissingGenerateMode
      // autogenerate: the requested distro is not in the supported list
    | UnsupportedTargetDistro(distro: String, supported: seq<String>)
      // generate: fewer resolving header URLs than driverkit requires
    | NotEnoughHeaders(expected: int, found: nat)
      // filepath.Glob: the pattern is malformed
    | BadPattern
      // errors.WithMessagef(cause, context)
    | WithMessage(context: String, cause: Error)
      // an error produced by a collaborator outside the model (I/O, network, driverkit)
    | External(description: String)
  {
    function Message(): String {
      match this
      case Validation(v) => v.Message()
      case UnsupportedTarget(t) => "target " + t + " is unsupported by driverkit"
      case MissingGenerateMode =>
        "either \"auto\" or target-{distro,kernelrelease,kernelversion} must be passed"
      case UnsupportedTargetDistro(d, l) =>
        "unsupported target distro: " + d + ". Must be one of: " + FormatList(l)
      case NotEnoughHeaders(e, f) =>
        "not enough headers packages found; expected " + IntToString(e) + ", found " + NatToString(f)
      case BadPattern => "syntax error in pattern"
      case WithMessage(c, cause) => c + ": " + cause.Message()
      case External(d) => d
    }
  }

  /**
   * The probe and module name errors render the same expected suffix ".o": the
   * messages differ only in the word naming the output kind.
   */
  lemma ModuleNameMessageSaysDotO(n: String, e: String)
    ensures HasSuffix(WrongOutputModuleName(n, e).Message(), e + ".o")
    ensures HasSuffix(WrongOutputProbeName(n, e).Message(), e + ".o")
  {
    var m := WrongOutputModuleName(n, e).Message();
    assert m == ("output module filename is wrong (" + n + "); expected: ") + (e + ".o");
    var p := WrongOutputProbeName(n, e).Message();
    assert p == ("output probe filename is wrong (" + n + "); expected: ") + (e + ".o");
  }

  /** `{context}: {tail}` starts with the context and ends with the tail. */
  lemma Wrapped(context: String, tail: String)
    ensures HasPrefix(context + ": " + tail, context) && HasSuffix(context + ": " + tail, tail)
  {
    assert context + ": " + tail == context + (": " + tail);
    HasPrefixOfAppend(context, ": " + tail);
    HasSuffixOfAppend(context + ": ", tail);
  }

  /** Wrapping an error with context keeps the cause's message as the tail. */
  lemma WithMessageKeepsCause(context: String, cause: Error)
    ensures HasSuffix(WithMessage(context, cause).Message(), cause.Message())
    ensures HasPrefix(WithMessage(context, cause).Message(), context)
  {
    Wrapped(context, cause.Message());
  }
}
