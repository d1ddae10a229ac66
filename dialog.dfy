/**
 * The registration dialog of main.py: the aiogram FSM group `Register` with its
 * two states, driven by cmd_add_shop, register_name and register_api_key.
 */
module Dialog {
  import opened Common
  import opened Shops

  /** No FSM state (Idle), `Register.name` and `Register.api_key`. */
  datatype DialogState = Idle | AwaitingName | AwaitingApiKey

  /**
   * One user's FSM context: the current state and the data collected so far.
   * The `api_key` entry is stored and read back inside register_api_key, which
   * then clears the context, so between two messages only `name` can be present.
   */
  class Session {
    var state: DialogState
    var name: Option<string>

    /** Cleared data at rest, and a name on hand whenever the key is awaited. */
    ghost predicate Valid()
      reads this
    {
      && (state == Idle ==> name.None?)
      && (state == AwaitingApiKey ==> name.Some?)
    }

    /** A user with no FSM state and no data. */
    constructor ()
      ensures Valid() && state == Idle && name.None?
    {
      state := Idle;
      name := None;
    }

    /**
     * cmd_add_shop (main.py:84-87): `state.set_state(Register.name)`.  aiogram's
     * set_state keeps the data, so a name from an abandoned dialog stays stored.
     * No registry is passed: adding a shop is not possible here.
     */
    method AddShop()
      requires Valid()
      modifies this
      ensures Valid()
      ensures state == AwaitingName && name == old(name)
    {
      state := AwaitingName;
    }

    /** register_name (main.py:90-94): store the reply as `name`, then await the key. */
    method ReplyName(text: string)
      requires Valid() && state == AwaitingName
      modifies this
      ensures Valid()
      ensures state == AwaitingApiKey && name == Some(text)
    {
      name := Some(text);
      state := AwaitingApiKey;
    }

    /**
     * register_api_key (main.py:97-117): with the validator's verdict `keyValid`,
     * append `{name, api_key}` to the registry on success; clear the context either way.
     */
    method ReplyApiKey(text: string, keyValid: bool, registry: ShopRegistry) returns (added: Option<Shop>)
      requires Valid() && state == AwaitingApiKey
      modifies this, registry
      ensures Valid()
      ensures state == Idle && name.None?
      ensures keyValid ==> added == Some(Shop(old(name).value, text))
                           && registry.shops == old(registry.shops) + [added.value]
      ensures !keyValid ==> added.None? && registry.shops == old(registry.shops)
    {
      var shopName := name.value;
      state, name := Idle, None;
      if keyValid {
        added := Some(Shop(shopName, text));
        registry.Add(added.value);
      } else {
        added := None;
      }
    }
  }
}
