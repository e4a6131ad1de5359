/**
 * Turning the `--config-map` / `--secret` flag value `name[.namespace]`
 * into an object reference. The ConfigMap mounter of mount_configmap.go
 * splits at the first dot only; the Secret mounter and the older ConfigMap
 * mounter of mount.go split at every dot and take a namespace from the flag
 * only when there are exactly two parts.
 */
module SourceRef {
  import opened Wrappers
  import opened GoStrings
  import opened Kube
  import Ambient

  /** The KUBE_NAMESPACE value, or "default" when it is empty. */
  function EnvOrDefault(kubeNamespace: string): (ns: string)
    ensures ns != ""
    ensures kubeNamespace != "" ==> ns == kubeNamespace
    ensures kubeNamespace == "" ==> ns == DefaultNamespace
  {
    if |kubeNamespace| == 0 then DefaultNamespace else kubeNamespace
  }

  /**
   * NewConfigMapMounter (mount_configmap.go): the trimmed flag value is cut
   * at its first dot into the name and a namespace, which may itself hold
   * dots; without a dot the namespace comes from namespace().
   */
  function ParseFirstDot(configMap: string, kubeNamespace: string, serviceAccountFile: Option<string>): (ref: ObjectRef)
    ensures '.' !in ref.name
  {
    var parts := SplitN2(TrimSpace(configMap), '.');
    if |parts| == 2 then ObjectRef(parts[0], parts[1])
    else ObjectRef(parts[0], Ambient.Namespace(kubeNamespace, serviceAccountFile))
  }

  /**
   * What ParseFirstDot reads from the trimmed value: with a dot, the name
   * and the namespace rebuild it around its first dot; without one, it is
   * the name and the namespace comes from namespace().
   */
  lemma FirstDotSplit(configMap: string, kubeNamespace: string, serviceAccountFile: Option<string>)
    ensures var t := TrimSpace(configMap);
            var ref := ParseFirstDot(configMap, kubeNamespace, serviceAccountFile);
            && ('.' in t ==> t == ref.name + "." + ref.namespace)
            && ('.' !in t ==> ref.name == t && ref.namespace == Ambient.Namespace(kubeNamespace, serviceAccountFile))
  {
  }

  /**
   * NewSecretMounter (mount_secret.go) and NewConfigMapMounter (mount.go):
   * the name is the trimmed value up to its first dot; with exactly one dot
   * the rest is the namespace, otherwise KUBE_NAMESPACE or "default" is used
   * and anything after a second dot is dropped.
   */
  function ParseEveryDot(value: string, kubeNamespace: string): (ref: ObjectRef)
    ensures '.' !in ref.name
    ensures var t := TrimSpace(value);
            && (Count(t, '.') == 1 ==> t == ref.name + "." + ref.namespace)
            && (Count(t, '.') != 1 ==> ref.namespace == EnvOrDefault(kubeNamespace))
            && ('.' !in t ==> ref.name == t)
            && ('.' in t ==> HasPrefix(t, ref.name + "."))
  {
    var t := TrimSpace(value);
    var parts := Split(t, '.');
    var ref := ObjectRef(parts[0], if |parts| == 2 then parts[1] else EnvOrDefault(kubeNamespace));
    SplitFirstPart(t, '.');
    ref
  }

  predicate HasPrefix(s: string, prefix: string) {
    |prefix| <= |s| && s[..|prefix|] == prefix
  }

  /** The first part of Split is `s` itself, or `s` up to and including its first separator. */
  lemma SplitFirstPart(s: string, sep: char)
    ensures sep !in s ==> Split(s, sep)[0] == s
    ensures sep in s ==> HasPrefix(s, Split(s, sep)[0] + [sep])
    ensures Count(s, sep) == 1 ==> s == Split(s, sep)[0] + [sep] + Split(s, sep)[1]
  {
    SplitN2AgreesWithSplit(s, sep);
  }

  /**
   * The namespace is empty only for a flag value that ends in its one dot:
   * "name." selects the empty namespace in both variants.
   */
  lemma {:induction false} EmptyNamespaceOnlyFromTrailingDot(value: string, kubeNamespace: string, serviceAccountFile: Option<string>)
    ensures ParseFirstDot(value, kubeNamespace, serviceAccountFile).namespace == "" <==>
            (Count(TrimSpace(value), '.') == 1 && TrimSpace(value)[|TrimSpace(value)| - 1] == '.')
    ensures ParseEveryDot(value, kubeNamespace).namespace == "" <==>
            (Count(TrimSpace(value), '.') == 1 && TrimSpace(value)[|TrimSpace(value)| - 1] == '.')
  {
    var t := TrimSpace(value);
    var a := ParseFirstDot(value, kubeNamespace, serviceAccountFile);
    var b := ParseEveryDot(value, kubeNamespace);
    FirstDotSplit(value, kubeNamespace, serviceAccountFile);
    if '.' in t {
      assert t == a.name + "." + a.namespace;
      CountAppend(a.name, "." + a.namespace, '.');
      CountAppend(".", a.namespace, '.');
      if a.namespace == "" {
        assert t[|t| - 1] == '.';
        assert Count(t, '.') == 1;
      }
      if Count(t, '.') == 1 && t[|t| - 1] == '.' {
        assert '.' !in a.namespace;
      }
      if Count(t, '.') == 1 {
        assert t == b.name + "." + b.namespace;
        if b.namespace != "" {
          assert t[|t| - 1] == b.namespace[|b.namespace| - 1];
        }
      }
    }
  }

  /** With exactly one dot the two parsers agree, whatever the service-account file holds. */
  lemma ParsersAgreeOnOneDot(value: string, kubeNamespace: string, serviceAccountFile: Option<string>)
    requires Count(TrimSpace(value), '.') == 1
    ensures ParseFirstDot(value, kubeNamespace, serviceAccountFile) == ParseEveryDot(value, kubeNamespace)
  {
    var t := TrimSpace(value);
    SplitN2AgreesWithSplit(t, '.');
  }

  /**
   * With two or more dots ("app.team.prod") the variants part ways: the
   * first keeps the dotted remainder as the namespace, the second drops it
   * and falls back to KUBE_NAMESPACE or "default".
   */
  lemma {:induction false} ParsersDisagreeOnTwoDots(value: string, kubeNamespace: string, serviceAccountFile: Option<string>)
    requires Count(TrimSpace(value), '.') >= 2
    ensures '.' in ParseFirstDot(value, kubeNamespace, serviceAccountFile).namespace
    ensures ParseEveryDot(value, kubeNamespace).namespace == EnvOrDefault(kubeNamespace)
    ensures ParseFirstDot(value, kubeNamespace, serviceAccountFile).name == ParseEveryDot(value, kubeNamespace).name
  {
    var t := TrimSpace(value);
    CountAtFirst(t, '.');
    SplitN2AgreesWithSplit(t, '.');
  }
}
