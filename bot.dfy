/**
 * One text message handled end to end: aiogram picks the handler (Router) and
 * the handler updates the sender's dialog and the shared registry.  aiogram
 * keeps one FSM context per user, so each user is a separate Session object.
 */
module Bot {
  import opened Common
  import opened Shops
  import opened Dialog
  import opened Router
  import opened Callback

  /** Which answer a handler gives; the Russian wording is not modelled. */
  datatype Reply =
    | Silent
    | Greeting
    | HelpText
    | AskShopName
    | AskApiKey
    | ShopAdded(shop: Shop)
    | InvalidKey
    | NoShops
    | ShopNames(names: seq<string>)
    | ChooseShop(buttons: seq<Button>)

  /**
   * Dispatch of one message, with the validator's verdict `keyValid` for the
   * case that the message is an API key.  Only register_api_key with a valid
   * key changes the registry; confirm_delete never runs (ConfirmDeleteShadowed).
   * delete_shop answers "no shops" for an empty registry and otherwise nothing.
   */
  method HandleMessage(session: Session, registry: ShopRegistry, text: string, keyValid: bool)
    returns (h: Option<Handler>, reply: Reply)
    requires session.Valid()
    modifies session, registry
    ensures session.Valid()
    ensures h == Route(old(session.state), text)
    ensures h == Some(CmdStart) ==> reply == Greeting
    ensures h == Some(CmdHelp) ==> reply == HelpText
    ensures h == Some(CmdAddShop) ==>
              session.state == AwaitingName && session.name == old(session.name) && reply == AskShopName
    ensures h == Some(RegisterName) ==>
              session.state == AwaitingApiKey && session.name == Some(text) && reply == AskApiKey
    ensures h == Some(RegisterApiKey) ==> session.state == Idle && session.name.None?
    ensures h == Some(RegisterApiKey) && keyValid ==>
              && registry.shops == old(registry.shops) + [Shop(old(session.name).value, text)]
              && reply == ShopAdded(Shop(old(session.name).value, text))
    ensures h == Some(RegisterApiKey) && !keyValid ==> registry.shops == old(registry.shops) && reply == InvalidKey
    ensures h != Some(RegisterApiKey) ==> registry.shops == old(registry.shops)
    ensures h != Some(CmdAddShop) && h != Some(RegisterName) && h != Some(RegisterApiKey) ==>
              session.state == old(session.state) && session.name == old(session.name)
    ensures h.None? ==> reply == Silent
    ensures (h == Some(ListShops) || h == Some(CmdReport) || h == Some(DeleteShop)) && registry.shops == [] ==>
              reply == NoShops
    ensures h == Some(DeleteShop) && registry.shops != [] ==> reply == Silent
    ensures h == Some(ListShops) && registry.shops != [] ==>
              && reply.ShopNames? && |reply.names| == |registry.shops|
              && forall i :: 0 <= i < |registry.shops| ==> reply.names[i] == registry.shops[i].name
    ensures h == Some(CmdReport) && registry.shops != [] ==> reply == ChooseShop(Buttons(registry.shops))
  {
    h := Route(session.state, text);
    ConfirmDeleteShadowed(session.state, text);
    match h
    case None =>
      reply := Silent;
    case Some(CmdStart) =>
      reply := Greeting;
    case Some(CmdHelp) =>
      reply := HelpText;
    case Some(CmdAddShop) =>
      session.AddShop();
      reply := AskShopName;
    case Some(RegisterName) =>
      session.ReplyName(text);
      reply := AskApiKey;
    case Some(RegisterApiKey) =>
      var added := session.ReplyApiKey(text, keyValid, registry);
      reply := if added.Some? then ShopAdded(added.value) else InvalidKey;
    case Some(DeleteShop) =>
      reply := if registry.shops == [] then NoShops else Silent;
    case Some(ConfirmDelete) =>
      assert false;
    case Some(ListShops) =>
      var names := registry.Names();
      reply := if names == [] then NoShops else ShopNames(names);
    case Some(CmdReport) =>
      reply := if registry.shops == [] then NoShops else ChooseShop(Buttons(registry.shops));
  }

  /**
   * A user sends /addshop, a name and a key: the dialog ends idle, and the
   * registry gains exactly `{name, key}` at its end when the key is valid and
   * stays as it was when it is not.
   */
  method AddShopConversation(stored: seq<Shop>, name: string, key: string, keyValid: bool)
    returns (shops: seq<Shop>, state: DialogState)
    requires Route(AwaitingName, name) == Some(RegisterName)
    requires Route(AwaitingApiKey, key) == Some(RegisterApiKey)
    ensures state == Idle
    ensures keyValid ==> shops == stored + [Shop(name, key)]
    ensures !keyValid ==> shops == stored
  {
    var registry := new ShopRegistry.Load(stored);
    var user := new Session();
    AddShopCommandRoutes(Idle);
    var h, reply := HandleMessage(user, registry, "/addshop", keyValid);
    assert user.state == AwaitingName && registry.shops == stored;
    h, reply := HandleMessage(user, registry, name, keyValid);
    assert user.state == AwaitingApiKey && user.name == Some(name) && registry.shops == stored;
    h, reply := HandleMessage(user, registry, key, keyValid);
    shops, state := registry.shops, user.state;
  }

  /**
   * Two users register at the same time, their messages interleaved: each shop
   * pairs its own name with its own key, in the order the keys arrived.  The
   * handlers (Session.AddShop, ReplyName, ReplyApiKey) are called directly,
   * without Route: the scenario takes for granted that aiogram hands each
   * name and key to register_name and register_api_key, which
   * AddShopConversation establishes through routing for a single user.
   */
  method InterleavedRegistrations(stored: seq<Shop>, name1: string, key1: string, name2: string, key2: string)
    returns (shops: seq<Shop>)
    ensures shops == stored + [Shop(name2, key2), Shop(name1, key1)]
  {
    var registry := new ShopRegistry.Load(stored);
    var first := new Session();
    var second := new Session();
    first.AddShop();
    second.AddShop();
    first.ReplyName(name1);
    second.ReplyName(name2);
    var added := second.ReplyApiKey(key2, true, registry);
    added := first.ReplyApiKey(key1, true, registry);
    shops := registry.shops;
  }
}
