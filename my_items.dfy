/** The "My Items" interceptor: it recognises one well-known identifier and,
    when the store has no object for it, provisions a canonical root folder,
    saves it and returns it in place of the missing object. */
module MyItems {
  import opened Wrappers
  import opened Domain

  /** The captured model: the configured identifier and name, a folder with
      no children, placed at the root of the hierarchy. */
  function CanonicalModel(identifierObject: Identifier, name: string): (m: DomainObject)
  {
    DomainObject(identifierObject, name, FolderType, [], Root)
  }

  /** The provisioning branch is taken when no object was found, or when the
      store classifies the object it found as missing. */
  predicate NeedsProvisioning(isMissing: DomainObject -> bool, found: Option<DomainObject>)
  {
    found.None? || isMissing(found.value)
  }

  /** What one `invoke` call returns and what it hands to `save`. */
  datatype Outcome = Outcome(result: DomainObject, saves: seq<DomainObject>)

  /** The resolution rule of `invoke`, as a function of the configured model,
      the store's classifier and the looked-up object. */
  function Resolve(identifierObject: Identifier, name: string, isMissing: DomainObject -> bool,
                   identifier: Identifier, found: Option<DomainObject>): (o: Outcome)
    ensures NeedsProvisioning(isMissing, found) ==>
              && o.result.identifier == identifierObject
              && o.result.name == name
              && o.result.objectType == FolderType
              && o.result.composition == []
              && o.result.location == Root
              && o.saves == [o.result]
    ensures !NeedsProvisioning(isMissing, found) ==> o.result == found.value && o.saves == []
  {
    if NeedsProvisioning(isMissing, found) then
      var model := CanonicalModel(identifierObject, name);
      Outcome(model, [model])
    else
      Outcome(found.value, [])
  }

  /** The result does not depend on the identifier passed to `invoke`, only
      on the looked-up object and the configured model. */
  lemma ResolveIgnoresIdentifier(identifierObject: Identifier, name: string, isMissing: DomainObject -> bool,
                                 id1: Identifier, id2: Identifier, found: Option<DomainObject>)
    ensures Resolve(identifierObject, name, isMissing, id1, found)
         == Resolve(identifierObject, name, isMissing, id2, found)
  {
  }

  /** Feeding a provisioned record back in returns it unchanged, with no
      further save, as long as the store does not classify it as missing. */
  lemma ResolveRoundTrip(identifierObject: Identifier, name: string, isMissing: DomainObject -> bool,
                         identifier: Identifier, first: Option<DomainObject>)
    requires NeedsProvisioning(isMissing, first)
    requires !isMissing(CanonicalModel(identifierObject, name))
    ensures var provisioned := Resolve(identifierObject, name, isMissing, identifier, first).result;
            Resolve(identifierObject, name, isMissing, identifier, Some(provisioned))
              == Outcome(provisioned, [])
  {
  }

  /** One `invoke` call: the identifier asked for and the looked-up object. */
  type Call = (Identifier, Option<DomainObject>)

  /** The saves made by a sequence of `invoke` calls, in call order. */
  function Replay(identifierObject: Identifier, name: string, isMissing: DomainObject -> bool,
                  calls: seq<Call>): (saves: seq<DomainObject>)
  {
    if calls == [] then []
    else
      Resolve(identifierObject, name, isMissing, calls[0].0, calls[0].1).saves
        + Replay(identifierObject, name, isMissing, calls[1..])
  }

  /** How many of the calls take the provisioning branch. */
  function CountProvisioning(isMissing: DomainObject -> bool, calls: seq<Call>): (n: nat)
  {
    if calls == [] then 0
    else (if NeedsProvisioning(isMissing, calls[0].1) then 1 else 0) + CountProvisioning(isMissing, calls[1..])
  }

  /** A further call adds its own saves after those of the earlier calls,
      so the log of a run of `invoke` calls is built call by call. */
  lemma {:induction false} ReplayAppend(identifierObject: Identifier, name: string,
                                        isMissing: DomainObject -> bool,
                                        calls: seq<Call>, c: Call)
    ensures Replay(identifierObject, name, isMissing, calls + [c])
         == Replay(identifierObject, name, isMissing, calls)
              + Resolve(identifierObject, name, isMissing, c.0, c.1).saves
  {
    if calls == [] {
      assert [c][1..] == [];
    } else {
      assert (calls + [c])[1..] == calls[1..] + [c];
      ReplayAppend(identifierObject, name, isMissing, calls[1..], c);
    }
  }

  /** Every provisioning call saves exactly once, there is no deduplication,
      and every save carries the same canonical record. */
  lemma {:induction false} ReplaySavesOncePerProvisioning(identifierObject: Identifier, name: string,
                                                          isMissing: DomainObject -> bool,
                                                          calls: seq<Call>)
    ensures |Replay(identifierObject, name, isMissing, calls)| == CountProvisioning(isMissing, calls)
    ensures forall s :: s in Replay(identifierObject, name, isMissing, calls) ==>
              s == CanonicalModel(identifierObject, name)
  {
    if calls != [] {
      ReplaySavesOncePerProvisioning(identifierObject, name, isMissing, calls[1..]);
    }
  }

  /** A run of calls that all find the object missing saves the canonical
      record once per call. */
  lemma {:induction false} ReplayAllMissing(identifierObject: Identifier, name: string,
                                            isMissing: DomainObject -> bool,
                                            calls: seq<Call>)
    requires forall i :: 0 <= i < |calls| ==> NeedsProvisioning(isMissing, calls[i].1)
    ensures Replay(identifierObject, name, isMissing, calls)
         == seq(|calls|, _ => CanonicalModel(identifierObject, name))
  {
    if calls != [] {
      ReplayAllMissing(identifierObject, name, isMissing, calls[1..]);
    }
  }

  /** The host's object service (`openmct.objects`): its classifier of
      missing objects, and the log of every object handed to `save`. */
  class ObjectStore {
    const isMissing: DomainObject -> bool
    var saved: seq<DomainObject>

    constructor (isMissing: DomainObject -> bool)
      ensures this.isMissing == isMissing && saved == []
    {
      this.isMissing := isMissing;
      saved := [];
    }

    /** Persisting is not awaited by the caller; only the call is recorded. */
    method Save(domainObject: DomainObject)
      modifies this
      ensures saved == old(saved) + [domainObject]
    {
      saved := saved + [domainObject];
    }
  }

  /** The interceptor built by the factory: its captured model never
      changes, and only `Invoke` has an effect (on the store's log). */
  class MyItemsInterceptor {
    const store: ObjectStore
    const identifierObject: Identifier
    const name: string
    const myItemsModel: DomainObject := CanonicalModel(identifierObject, name)
    const priority: Priority := Highest

    constructor (store: ObjectStore, identifierObject: Identifier, name: string)
      ensures this.store == store && this.identifierObject == identifierObject && this.name == name
      ensures myItemsModel == DomainObject(identifierObject, name, FolderType, [], Root)
      ensures priority == Highest
    {
      this.store := store;
      this.identifierObject := identifierObject;
      this.name := name;
    }

    /** Matches exactly the configured identifier: same key and same
        namespace. */
    function AppliesTo(identifier: Identifier): (b: bool)
      ensures b <==> identifier == identifierObject
    {
      identifier.key == myItemsModel.identifier.key
        && identifier.namespace == myItemsModel.identifier.namespace
    }

    /** Provisions and saves the canonical model when the object is absent or
        missing; otherwise returns the object untouched and saves nothing. */
    method Invoke(identifier: Identifier, found: Option<DomainObject>) returns (r: DomainObject)
      modifies store
      ensures var o := Resolve(identifierObject, name, store.isMissing, identifier, found);
              r == o.result && store.saved == old(store.saved) + o.saves
    {
      if found.None? || store.isMissing(found.value) {
        store.Save(myItemsModel);
        return myItemsModel;
      }
      return found.value;
    }
  }

  /** Two `invoke` calls in a row on one interceptor: each returns what
      `Resolve` gives for it, and the log grows by exactly the saves the
      fold `Replay` assigns to the pair. When both calls provision, both
      return the same canonical record and both are saved. */
  method InvokeTwice(interceptor: MyItemsInterceptor, a: Call, b: Call)
    returns (first: DomainObject, second: DomainObject)
    modifies interceptor.store
    ensures first == Resolve(interceptor.identifierObject, interceptor.name, interceptor.store.isMissing, a.0, a.1).result
    ensures second == Resolve(interceptor.identifierObject, interceptor.name, interceptor.store.isMissing, b.0, b.1).result
    ensures interceptor.store.saved
         == old(interceptor.store.saved)
              + Replay(interceptor.identifierObject, interceptor.name, interceptor.store.isMissing, [a, b])
    ensures NeedsProvisioning(interceptor.store.isMissing, a.1) && NeedsProvisioning(interceptor.store.isMissing, b.1) ==>
              && first == second == CanonicalModel(interceptor.identifierObject, interceptor.name)
              && interceptor.store.saved == old(interceptor.store.saved) + [first, second]
  {
    first := interceptor.Invoke(a.0, a.1);
    second := interceptor.Invoke(b.0, b.1);
    ReplayAppend(interceptor.identifierObject, interceptor.name, interceptor.store.isMissing, [a], b);
  }
}
