/** Reading Argo CD's own settings and an Application's deployed revision. */
module Controllers {
  import opened Wrappers
  import opened ArgoCD

  datatype NamespacedName = NamespacedName(namespace: string, name: string)

  /** The ConfigMap holding Argo CD's settings. */
  const ArgoCDConfigMapName: string := "argocd-cm"

  /**
   * `findArgoCDURL`. `getConfigMap` is the cluster read: the ConfigMap's data,
   * or `None` when the read fails. The URL is the "url" entry, and the empty
   * string when the read fails or the entry is missing.
   */
  function FindArgoCDURL(namespace: string, getConfigMap: NamespacedName -> Option<map<string, string>>): (r: string)
    ensures var cm := getConfigMap(NamespacedName(namespace, ArgoCDConfigMapName));
      && (cm.None? ==> r == "")
      && (cm.Some? && "url" in cm.value ==> r == cm.value["url"])
      && (cm.Some? && "url" !in cm.value ==> r == "")
  {
    match getConfigMap(NamespacedName(namespace, ArgoCDConfigMapName))
    case None => ""
    case Some(data) => Lookup(data, "url")
  }

  /**
   * `getLastDeployedRevision`: the revision of the last sync operation, or
   * the empty string when no operation or no sync is recorded.
   */
  function GetLastDeployedRevision(a: Application): (r: string)
    ensures a.status.operationState.None? ==> r == ""
    ensures a.status.operationState.Some? && a.status.operationState.value.operation.sync.None? ==> r == ""
    ensures a.status.operationState.Some? && a.status.operationState.value.operation.sync.Some? ==>
      r == a.status.operationState.value.operation.sync.value.revision
  {
    if a.status.operationState.None? then ""
    else if a.status.operationState.value.operation.sync.None? then ""
    else a.status.operationState.value.operation.sync.value.revision
  }

  /** The revision depends on the recorded operation only: health, annotations and the rest do not matter. */
  lemma LastDeployedRevisionDependsOnlyOnOperation(a: Application, b: Application)
    requires a.status.operationState.Some? <==> b.status.operationState.Some?
    requires a.status.operationState.Some? ==>
      a.status.operationState.value.operation == b.status.operationState.value.operation
    ensures GetLastDeployedRevision(a) == GetLastDeployedRevision(b)
  {
  }
}
