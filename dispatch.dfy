/** `process<Name>`: turns a queued key into a lister lookup, according
    to the resource's scope, and hands a found object to the
    CreatedOrUpdated handler. */
module Dispatch {
  import opened Collaborators

  /** The only scope whose keys are split into namespace and name; the
      comparison is exact, so every other spelling is cluster-scoped. */
  const NamespacedScope: string := "Namespaced"

  /** How processing one key ends. */
  datatype Outcome<O> =
    | BadKey(cause: string)                 // SplitMetaNamespaceKey failed
    | Missing                               // the lister reported not-found
    | CacheError(cause: string)             // the lister reported another error
    | Handled(obj: O, err: Option<string>)  // CreatedOrUpdated(obj) returned err
  {
    /** Whether `process` returned a non-nil error. */
    predicate Failed()
    {
      !(Handled? && err.None?)
    }
  }

  /** The lister lookup a key leads to; None when the key of a
      namespaced resource cannot be split, so no lookup happens. */
  function LookupFor<O>(scope: string, key: string, env: Env<O>): Option<Lookup<O>>
  {
    if scope == NamespacedScope then
      match env.split(key)
      case SplitOk(namespace, name) => Some(env.namespacedGet(namespace, name))
      case SplitErr(_) => None
    else Some(env.clusterGet(key))
  }

  /** `process<Name>(key)`. */
  function Process<O>(scope: string, key: string, env: Env<O>): (r: Outcome<O>)
    ensures r.BadKey? <==> scope == NamespacedScope && env.split(key).SplitErr?
    ensures r.BadKey? ==> r.cause == env.split(key).cause
    ensures scope == NamespacedScope && env.split(key).SplitOk? ==>
      r == Classify(env.namespacedGet(env.split(key).namespace, env.split(key).name), env)
    ensures scope != NamespacedScope ==> r == Classify(env.clusterGet(key), env)
    ensures r.Handled? ==> r.err == env.createdOrUpdated(r.obj)
  {
    if scope == NamespacedScope then
      match env.split(key)
      case SplitErr(cause) => BadKey(cause)
      case SplitOk(namespace, name) => Classify(env.namespacedGet(namespace, name), env)
    else
      Classify(env.clusterGet(key), env)
  }

  /** What follows a lister result: the handler runs on a found object
      only; both kinds of lister error end processing. */
  function Classify<O>(l: Lookup<O>, env: Env<O>): (r: Outcome<O>)
    ensures r.Handled? <==> l.Found?
    ensures l.Found? ==> r == Handled(l.obj, env.createdOrUpdated(l.obj))
    ensures r.Missing? <==> l.NotFound?
    ensures r.CacheError? <==> l.LookupErr?
    ensures r.CacheError? ==> r.cause == l.cause
  {
    match l
    case Found(o) => Handled(o, env.createdOrUpdated(o))
    case NotFound => Missing
    case LookupErr(cause) => CacheError(cause)
  }

  /** The handler runs exactly when the lister finds the object the key
      names, and a found object is the only thing it is given. */
  lemma HandlerRunsIffFound<O>(scope: string, key: string, env: Env<O>)
    ensures Process(scope, key, env).Handled? <==>
      LookupFor(scope, key, env).Some? && LookupFor(scope, key, env).value.Found?
    ensures Process(scope, key, env).Handled? ==>
      LookupFor(scope, key, env) == Some(Found(Process(scope, key, env).obj))
  {
  }

  /** Keys of a cluster-scoped resource are never split: the result does
      not depend on the key splitter at all. */
  lemma ClusterScopeIgnoresSplit<O>(scope: string, key: string, env: Env<O>, split: string -> SplitResult)
    requires scope != NamespacedScope
    ensures Process(scope, key, env) == Process(scope, key, env.(split := split))
    ensures !Process(scope, key, env).BadKey?
  {
  }

  /** A processing failure is one of the four error returns of the
      source, and the handler succeeding is the only success. */
  lemma FailureCases<O>(scope: string, key: string, env: Env<O>)
    ensures !Process(scope, key, env).Failed() <==>
      exists o :: LookupFor(scope, key, env) == Some(Found(o)) && env.createdOrUpdated(o).None?
  {
  }

  /** The error `process` returns, as text. */
  function ErrorText<O>(key: string, r: Outcome<O>): string
    requires r.Failed()
  {
    match r
    case BadKey(cause) => "could not parse name " + key + ": " + cause
    case Missing => "tried to get " + key + ", but it was not found"
    case CacheError(cause) => "error getting " + key + " from cache: " + cause
    case Handled(_, err) => err.value
  }
}
