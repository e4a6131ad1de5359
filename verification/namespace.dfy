/** The namespace fallback of util.go. */
module Ambient {
  import opened Wrappers
  import opened GoStrings
  import Kube

  /**
   * namespace(): the KUBE_NAMESPACE value when it is set, else the trimmed
   * service-account namespace file when it was read and is not blank, else
   * "default". `serviceAccountFile` is None when the file could not be read.
   */
  function Namespace(kubeNamespace: string, serviceAccountFile: Option<string>): (ns: string)
    ensures ns != ""
    ensures kubeNamespace != "" ==> ns == kubeNamespace
    ensures kubeNamespace == "" && serviceAccountFile.Some? && TrimSpace(serviceAccountFile.value) != "" ==>
              ns == TrimSpace(serviceAccountFile.value)
    ensures kubeNamespace == "" && (serviceAccountFile.None? || TrimSpace(serviceAccountFile.value) == "") ==>
              ns == Kube.DefaultNamespace
  {
    if kubeNamespace != "" then kubeNamespace
    else if serviceAccountFile.Some? && |TrimSpace(serviceAccountFile.value)| > 0 then
      TrimSpace(serviceAccountFile.value)
    else Kube.DefaultNamespace
  }

  /** A namespace read from the file never carries surrounding white space. */
  lemma FileNamespaceIsTrimmed(serviceAccountFile: Option<string>)
    ensures var ns := Namespace("", serviceAccountFile);
            !IsSpace(ns[0]) && !IsSpace(ns[|ns| - 1])
  {
  }

  /** When KUBE_NAMESPACE is set the file's contents make no difference. */
  lemma EnvironmentShadowsFile(kubeNamespace: string, f1: Option<string>, f2: Option<string>)
    requires kubeNamespace != ""
    ensures Namespace(kubeNamespace, f1) == Namespace(kubeNamespace, f2)
  {
  }
}
