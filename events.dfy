/** The notification handlers Initialize registers with a resource's
    informer: which ones exist, what AddFunc and UpdateFunc enqueue, and
    how DeleteFunc resolves its payload and calls the Deleted handler
    without going through the queue. */
module Events {
  import opened GenConfig
  import opened Collaborators

  /** A deletion payload as an informer hands it over: the typed object,
      a cache.DeletedFinalStateUnknown tombstone around any payload, or a
      value of some other type. */
  datatype Payload<O> = Obj(o: O) | Tombstone(inner: Payload<O>) | Other

  /** The three ways DeleteFunc's type assertions can end. */
  datatype DeleteResolution<O> =
    | Resolved(obj: O)
    | NotTombstone          // neither the typed object nor a tombstone
    | WrongKindInTombstone  // a tombstone whose content is not the typed object

  /** DeleteFunc's payload resolution: try the typed object, then the
      object inside a tombstone. */
  function ResolveDelete<O>(p: Payload<O>): (r: DeleteResolution<O>)
    ensures p.Obj? ==> r == Resolved(p.o)
    ensures p.Tombstone? && p.inner.Obj? ==> r == Resolved(p.inner.o)
    ensures r.Resolved? <==> p.Obj? || (p.Tombstone? && p.inner.Obj?)
    ensures r.NotTombstone? <==> p.Other?
    ensures r.WrongKindInTombstone? <==> p.Tombstone? && !p.inner.Obj?
  {
    match p
    case Obj(o) => Resolved(o)
    case Tombstone(inner) =>
      (match inner
       case Obj(o) => Resolved(o)
       case _ => WrongKindInTombstone)
    case Other => NotTombstone
  }

  /** How the informer reports the deletion of `o`: the object itself, or
      a tombstone carrying its last known state when it had already left
      the informer's store. */
  function DeletionPayload<O>(o: O, evicted: bool): Payload<O>
  {
    if evicted then Tombstone(Obj(o)) else Obj(o)
  }

  /** Whichever way a deletion is reported, DeleteFunc recovers the very
      object that was deleted. */
  lemma DeletionRecoversObject<O>(o: O, evicted: bool)
    ensures ResolveDelete(DeletionPayload(o, evicted)) == Resolved(o)
  {
  }

  /** A tombstone around a tombstone is not unwrapped twice. */
  lemma NestedTombstoneDropped<O>(p: Payload<O>)
    ensures ResolveDelete(Tombstone(Tombstone(p))) == WrongKindInTombstone
  {
  }

  /** The handler functions registered for a resource. */
  datatype HandlerFuncs = HandlerFuncs(addFunc: bool, updateFunc: bool, deleteFunc: bool)

  /** Initialize wires AddFunc, UpdateFunc and DeleteFunc from the
      resource's Create, Update and Delete flags. */
  function WiredHandlers(r: Resource): HandlerFuncs
  {
    HandlerFuncs(r.create, r.update, r.delete)
  }

  /** A notification from the resource's informer. */
  datatype Event<O> = Added(obj: O) | Updated(previous: O, current: O) | Removed(payload: Payload<O>)

  /** What a notification leads to. */
  datatype Reaction<O> =
    | Unhandled                              // no handler registered for it
    | NoKey                                  // MetaNamespaceKeyFunc failed; nothing happens
    | Enqueue(key: string)                   // Queue.Add(key)
    | CallDeleted(obj: O, err: Option<string>)  // <Name>Deleted(obj) called, err logged
    | Dropped(message: string)               // payload unusable, logged

  function HandlerFor<O>(h: HandlerFuncs, ev: Event<O>): bool
  {
    match ev
    case Added(_) => h.addFunc
    case Updated(_, _) => h.updateFunc
    case Removed(_) => h.deleteFunc
  }

  /** The handler registered for `r` reacting to `ev`. */
  function OnEvent<O>(r: Resource, env: Env<O>, ev: Event<O>): (x: Reaction<O>)
    ensures x.Unhandled? <==>
      (ev.Added? && !r.create) || (ev.Updated? && !r.update) || (ev.Removed? && !r.delete)
    ensures x.Enqueue? <==>
      (ev.Added? && r.create && env.keyOf(ev.obj).Some?) ||
      (ev.Updated? && r.update && env.keyOf(ev.current).Some?)
    ensures x.Enqueue? && ev.Added? ==> env.keyOf(ev.obj) == Some(x.key)
    ensures x.Enqueue? && ev.Updated? ==> env.keyOf(ev.current) == Some(x.key)
    ensures x.NoKey? <==>
      (ev.Added? && r.create && env.keyOf(ev.obj).None?) ||
      (ev.Updated? && r.update && env.keyOf(ev.current).None?)
    ensures x.Dropped? <==> ev.Removed? && r.delete && !ResolveDelete(ev.payload).Resolved?
    ensures x.CallDeleted? <==> ev.Removed? && r.delete && ResolveDelete(ev.payload).Resolved?
    ensures x.CallDeleted? ==>
      ResolveDelete(ev.payload) == Resolved(x.obj) && x.err == env.deleted(x.obj)
  {
    if !HandlerFor(WiredHandlers(r), ev) then Unhandled
    else
      match ev
      case Added(o) =>
        (match env.keyOf(o)
         case Some(key) => Enqueue(key)
         case None => NoKey)
      case Updated(_, n) =>
        (match env.keyOf(n)
         case Some(key) => Enqueue(key)
         case None => NoKey)
      case Removed(p) =>
        (match ResolveDelete(p)
         case Resolved(o) => CallDeleted(o, env.deleted(o))
         case NotTombstone => Dropped("couldn't get object from tombstone")
         case WrongKindInTombstone =>
           Dropped("tombstone contained object that is not a " + r.name))
  }

  /** The error lines DeleteFunc logs for a reaction. */
  function ReactionReports<O>(x: Reaction<O>): seq<string>
  {
    match x
    case Dropped(message) => [message]
    case CallDeleted(_, Some(e)) => ["failed to process deletion: " + e]
    case _ => []
  }

  /** A deletion reported with the object still in the store or as a
      tombstone reaches the Deleted handler with that object, and never
      the queue. */
  lemma DeletionReachesHandler<O>(r: Resource, env: Env<O>, o: O, evicted: bool)
    requires r.delete
    ensures OnEvent(r, env, Removed(DeletionPayload(o, evicted))) == CallDeleted(o, env.deleted(o))
  {
  }
}
