// The unsubscribe registry of src/app/UnsubscribeContext.tsx: a provider
// holding one nullable slot for the live list listener's teardown, the React
// state setter that overwrites it, and the hook that refuses to run outside
// a provider.

module UnsubscribeContext {
  import opened Types

  /** A teardown function returned by `onSnapshot`, identified by a handle. */
  type Teardown = nat

  /** What a React state setter accepts for this slot. A function passed to
      it is always taken as an updater, which computes the new value from
      the previous one, so the only plain value it can store is null; a
      teardown gets in only as the result of an updater. */
  datatype SetStateAction = Reset | Updater(update: Option<Teardown> -> Option<Teardown>)

  const OutsideProviderMessage: string := "useUnsubscribe must be used within a UnsubscribeProvider"

  class UnsubscribeProvider {
    /** The `unsubscribe` state: null, or the teardown last stored. */
    var unsubscribe: Option<Teardown>

    /** `useState<(() => void) | null>(null)` */
    constructor ()
      ensures unsubscribe == None
    {
      unsubscribe := None;
    }

    /** `setUnsubscribe(action)`: the new slot value replaces the old one,
        which is dropped without being called. `setUnsubscribe(null)` empties
        the slot; an updater receives the old value and its result is stored. */
    method SetUnsubscribe(action: SetStateAction)
      modifies this
      ensures action.Reset? ==> unsubscribe == None
      ensures action.Updater? ==> unsubscribe == action.update(old(unsubscribe))
    {
      match action
      case Reset => unsubscribe := None;
      case Updater(f) => unsubscribe := f(unsubscribe);
    }

    /** What a consumer's `if (unsubscribe) unsubscribe()` calls: the held
        teardown when there is one, nothing otherwise. */
    function TeardownCalls(): (calls: seq<Teardown>)
      reads this
      ensures |calls| <= 1
      ensures calls == [] <==> unsubscribe.None?
      ensures forall h :: h in calls <==> unsubscribe == Some(h)
    {
      if unsubscribe.Some? then [unsubscribe.value] else []
    }
  }

  /** The result of `useUnsubscribe()`: the provider's value, or the error it throws. */
  datatype HookResult = Provided(provider: UnsubscribeProvider) | Thrown(message: string)

  /** `useUnsubscribe()`: the nearest provider, or an Error outside any. */
  method UseUnsubscribe(context: Option<UnsubscribeProvider>) returns (r: HookResult)
    ensures r.Thrown? <==> context.None?
    ensures r.Thrown? ==> r.message == OutsideProviderMessage
    ensures r.Provided? ==> context == Some(r.provider)
  {
    if context.None? {
      return Thrown(OutsideProviderMessage);
    }
    return Provided(context.value);
  }
}
