/*
 * `EasyAdminProvider`: the single static slot through which plugins reach
 * the API instance. The static field is a field of one provider object here.
 */
module Provider {
  import opened JavaLang

  const NOT_INITIALIZED := "EasyAdmin has not been initialized yet!"
  const ALREADY_REGISTERED := "An instance has already been registered"

  class EasyAdminProvider<E> {
    var easyAdmin: Option<E>

    /** The slot starts empty when the class is loaded. */
    constructor ()
      ensures easyAdmin == None
    {
      easyAdmin := None;
    }

    /** `get`: the registered instance; before any registration it throws. */
    method Get() returns (r: Outcome<E>)
      ensures easyAdmin.None? ==> r == Throws(IllegalStateException(NOT_INITIALIZED))
      ensures easyAdmin.Some? ==> r == Ok(easyAdmin.value)
    {
      if easyAdmin.None? {
        return Throws(IllegalStateException(NOT_INITIALIZED));
      }
      return Ok(easyAdmin.value);
    }

    /** `register`: fills the empty slot; a second registration throws and keeps the first instance. */
    method Register(instance: E) returns (r: Outcome<()>)
      modifies this
      ensures old(easyAdmin).Some? ==> r == Throws(IllegalStateException(ALREADY_REGISTERED)) && easyAdmin == old(easyAdmin)
      ensures old(easyAdmin).None? ==> r == Ok(()) && easyAdmin == Some(instance)
    {
      if easyAdmin.Some? {
        return Throws(IllegalStateException(ALREADY_REGISTERED));
      }
      easyAdmin := Some(instance);
      return Ok(());
    }

    /** `unregister`: empties the slot, whatever it held. */
    method Unregister()
      modifies this
      ensures easyAdmin == None
    {
      easyAdmin := None;
    }
  }

  /**
   * The slot's life cycle: `get` fails before registration, returns the
   * registered instance after it, a second registration fails, and after
   * `unregister` a new instance can be registered and is the one returned.
   */
  method Lifecycle<E>(first: E, second: E)
    returns (before: Outcome<E>, afterRegister: Outcome<E>, again: Outcome<()>, reRegister: Outcome<()>, afterReRegister: Outcome<E>)
    ensures before == Throws(IllegalStateException(NOT_INITIALIZED))
    ensures afterRegister == Ok(first)
    ensures again.Throws?
    ensures reRegister == Ok(()) && afterReRegister == Ok(second)
  {
    var p := new EasyAdminProvider<E>();
    before := p.Get();
    var _ := p.Register(first);
    afterRegister := p.Get();
    again := p.Register(second);
    p.Unregister();
    reRegister := p.Register(second);
    afterReRegister := p.Get();
  }
}
