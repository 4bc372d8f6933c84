/** What the generated controller receives from code outside this model:
    client-go's key functions and listers, and the user's handlers. Each is
    a total function whose results are not constrained here. */
module Collaborators {

  datatype Option<T> = None | Some(value: T)

  /** Result of cache.SplitMetaNamespaceKey. */
  datatype SplitResult = SplitOk(namespace: string, name: string) | SplitErr(cause: string)

  /** Result of a lister's Get: the object, a not-found error (the case
      errors.IsNotFound recognises) or any other error. */
  datatype Lookup<O> = Found(obj: O) | NotFound | LookupErr(cause: string)

  /** The collaborators of one watched resource with object type O. The
      handlers return `Some(message)` for an error and `None` for nil. */
  datatype Env<!O> = Env(
    keyOf: O -> Option<string>,            // cache.MetaNamespaceKeyFunc; None when it fails
    split: string -> SplitResult,          // cache.SplitMetaNamespaceKey
    namespacedGet: (string, string) -> Lookup<O>,  // Lister.<Plural>(namespace).Get(name)
    clusterGet: string -> Lookup<O>,       // Lister.Get(name)
    createdOrUpdated: O -> Option<string>, // the user's <Name>CreatedOrUpdated
    deleted: O -> Option<string>)          // the user's <Name>Deleted
}
