/**
 * run.go: the `run` command's flag validation (getRestConfig) and its
 * choice between the ConfigMap and the Secret mounter. A log.Fatal is a
 * Fatal outcome; whether the kubeconfig could be built is a parameter.
 */
module RunCmd {
  import opened Wrappers

  datatype Flags = Flags(configMap: string, secret: string, mountDir: string, bashFile: string)

  /** The four log.Fatal calls of getRestConfig, in the order they are checked. */
  datatype ConfigError = SourceMissing | SourceAmbiguous | MountDirMissing | KubeConfigFailed

  /** Exactly one of `--config-map` and `--secret` is set, and `--mount-location` is. */
  predicate WellFormed(f: Flags) {
    (f.configMap != "" <==> f.secret == "") && f.mountDir != ""
  }

  /**
   * getRestConfig: passes exactly when the flags are well formed and the
   * kubeconfig is built; the source checks come first, so a missing or
   * doubled source is reported even when the mount directory is missing too.
   */
  function GetRestConfig(f: Flags, kubeConfigBuilt: bool): (err: Option<ConfigError>)
    ensures err.None? <==> WellFormed(f) && kubeConfigBuilt
    ensures f.configMap == "" && f.secret == "" ==> err == Some(SourceMissing)
    ensures f.configMap != "" && f.secret != "" ==> err == Some(SourceAmbiguous)
    ensures (f.configMap != "" <==> f.secret == "") && f.mountDir == "" ==> err == Some(MountDirMissing)
    ensures WellFormed(f) && !kubeConfigBuilt ==> err == Some(KubeConfigFailed)
  {
    if f.configMap == "" && f.secret == "" then Some(SourceMissing)
    else if f.configMap != "" && f.secret != "" then Some(SourceAmbiguous)
    else if f.mountDir == "" then Some(MountDirMissing)
    else if !kubeConfigBuilt then Some(KubeConfigFailed)
    else None
  }

  /** What `kloader run` goes on to do. */
  datatype RunOutcome =
    | StartConfigMap(configMap: string, mountDir: string, cmd: string)
    | StartSecret(secret: string, mountDir: string, cmd: string)
    | Fatal(err: ConfigError)
    | HoldIdle

  /**
   * newRunCmd's Run: a ConfigMap mounter when `--config-map` is set, else a
   * Secret mounter when `--secret` is set; getRestConfig is called (and may
   * end the process) only inside those branches, before the mounter is built.
   */
  function Run(f: Flags, kubeConfigBuilt: bool): (o: RunOutcome)
    ensures o.StartConfigMap? ==> f.configMap != "" && o == StartConfigMap(f.configMap, f.mountDir, f.bashFile)
    ensures o.StartSecret? ==> f.configMap == "" && o == StartSecret(f.secret, f.mountDir, f.bashFile)
    ensures o.StartConfigMap? || o.StartSecret? <==> WellFormed(f) && kubeConfigBuilt
    ensures o.Fatal? ==> Some(o.err) == GetRestConfig(f, kubeConfigBuilt)
    ensures o.HoldIdle? <==> f.configMap == "" && f.secret == ""
  {
    if f.configMap != "" then
      var err := GetRestConfig(f, kubeConfigBuilt);
      if err.Some? then Fatal(err.value) else StartConfigMap(f.configMap, f.mountDir, f.bashFile)
    else if f.secret != "" then
      var err := GetRestConfig(f, kubeConfigBuilt);
      if err.Some? then Fatal(err.value) else StartSecret(f.secret, f.mountDir, f.bashFile)
    else HoldIdle
  }

  /**
   * As written, `run` with neither source flag never reaches getRestConfig:
   * it holds forever without reporting "ConfigMap/Secret is required".
   */
  lemma NoSourceHoldsIdle(mountDir: string, bashFile: string, kubeConfigBuilt: bool)
    ensures Run(Flags("", "", mountDir, bashFile), kubeConfigBuilt) == HoldIdle
    ensures GetRestConfig(Flags("", "", mountDir, bashFile), kubeConfigBuilt) == Some(SourceMissing)
  {
  }

  /** The dispatch with the validation done first, as getRestConfig's first check intends. */
  function RunValidated(f: Flags, kubeConfigBuilt: bool): (o: RunOutcome)
    ensures !o.HoldIdle?
    ensures o.Fatal? <==> GetRestConfig(f, kubeConfigBuilt).Some?
    ensures o.Fatal? ==> Some(o.err) == GetRestConfig(f, kubeConfigBuilt)
    ensures o.StartConfigMap? ==> f.configMap != "" && f.secret == "" && f.mountDir != ""
    ensures o.StartSecret? ==> f.secret != "" && f.configMap == "" && f.mountDir != ""
  {
    var err := GetRestConfig(f, kubeConfigBuilt);
    if err.Some? then Fatal(err.value)
    else if f.configMap != "" then StartConfigMap(f.configMap, f.mountDir, f.bashFile)
    else StartSecret(f.secret, f.mountDir, f.bashFile)
  }

  /** The corrected dispatch differs from the written one only when no source is given. */
  lemma RunValidatedAgreesWithRun(f: Flags, kubeConfigBuilt: bool)
    ensures f.configMap != "" || f.secret != "" ==> RunValidated(f, kubeConfigBuilt) == Run(f, kubeConfigBuilt)
    ensures f.configMap == "" && f.secret == "" ==> RunValidated(f, kubeConfigBuilt) == Fatal(SourceMissing)
  {
  }
}
