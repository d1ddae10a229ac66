/**
 * aiogram's dispatch of text messages in main.py: handlers are tried in the
 * order they are registered and the first whose filters pass handles the message.
 * Handlers without a state filter run in every state.
 */
module Router {
  import opened Common
  import opened Dialog

  /** The message handlers of main.py, by function name. */
  datatype Handler =
    | CmdStart | CmdHelp | CmdAddShop | RegisterName | RegisterApiKey
    | DeleteShop | ConfirmDelete | ListShops | CmdReport

  /** Registration order in main.py (lines 68, 73, 84, 90, 97, 120, 128, 146, 161). */
  const Registered: seq<Handler> :=
    [CmdStart, CmdHelp, CmdAddShop, RegisterName, RegisterApiKey,
     DeleteShop, ConfirmDelete, ListShops, CmdReport]

  /** The command word: the text after '/' up to the first space or '@'. */
  function Word(s: string): (w: string)
    ensures |w| <= |s| && w == s[..|w|]
    ensures forall i :: 0 <= i < |w| ==> w[i] != ' ' && w[i] != '@'
    ensures |w| < |s| ==> s[|w|] == ' ' || s[|w|] == '@'
  {
    if s == [] || s[0] == ' ' || s[0] == '@' then [] else [s[0]] + Word(s[1..])
  }

  /** A word without separators is its own command word. */
  lemma {:induction false} WordOfPlain(s: string)
    requires forall i :: 0 <= i < |s| ==> s[i] != ' ' && s[i] != '@'
    ensures Word(s) == s
  {
    if s != [] {
      WordOfPlain(s[1..]);
    }
  }

  /** The command a message carries, if it starts with the prefix '/'. */
  function CommandName(text: string): (r: Option<string>)
    ensures r.Some? <==> |text| > 0 && text[0] == '/'
  {
    if |text| > 0 && text[0] == '/' then Some(Word(text[1..])) else None
  }

  /** aiogram's `Command(name)` filter. */
  predicate IsCommand(text: string, name: string)
    ensures IsCommand(text, name) ==> |text| > 0 && text[0] == '/'
  {
    CommandName(text) == Some(name)
  }

  /** Whether a handler's filters pass for a message in a given FSM state. */
  predicate Accepts(h: Handler, state: DialogState, text: string)
  {
    match h
    case CmdStart => IsCommand(text, "start")
    case CmdHelp => IsCommand(text, "help")
    case CmdAddShop => IsCommand(text, "addshop")
    case RegisterName => state == AwaitingName
    case RegisterApiKey => state == AwaitingApiKey
    case DeleteShop => IsCommand(text, "delshop")
    case ConfirmDelete => state == AwaitingName
    case ListShops => IsCommand(text, "shops")
    case CmdReport => IsCommand(text, "report")
  }

  /** The position of the first handler in `hs` that accepts the message. */
  function FirstAccepting(hs: seq<Handler>, state: DialogState, text: string): (r: Option<nat>)
    ensures r.Some? ==> r.value < |hs| && Accepts(hs[r.value], state, text)
    ensures r.Some? ==> forall j :: 0 <= j < r.value ==> !Accepts(hs[j], state, text)
    ensures r.None? <==> forall j :: 0 <= j < |hs| ==> !Accepts(hs[j], state, text)
  {
    if hs == [] then None
    else if Accepts(hs[0], state, text) then Some(0)
    else match FirstAccepting(hs[1..], state, text)
      case None => None
      case Some(i) => Some(i + 1)
  }

  /** The handler that runs for a message, or None when no handler takes it. */
  function Route(state: DialogState, text: string): (r: Option<Handler>)
    ensures r.Some? ==> Accepts(r.value, state, text)
    ensures r.Some? ==> exists i :: 0 <= i < |Registered| && Registered[i] == r.value
                                    && forall j :: 0 <= j < i ==> !Accepts(Registered[j], state, text)
    ensures r.None? <==> forall h :: h in Registered ==> !Accepts(h, state, text)
  {
    match FirstAccepting(Registered, state, text)
    case None => None
    case Some(i) => Some(Registered[i])
  }

  /**
   * A handler never runs when one registered before it accepts whenever it does.
   */
  lemma ShadowedNeverChosen(hs: seq<Handler>, i: nat, k: nat, state: DialogState, text: string)
    requires i < k < |hs|
    requires Accepts(hs[k], state, text) ==> Accepts(hs[i], state, text)
    ensures FirstAccepting(hs, state, text) != Some(k)
  {
  }

  /**
   * confirm_delete is registered after register_name for the same state
   * `Register.name` (main.py:90 and main.py:128), so it never handles a message.
   */
  lemma ConfirmDeleteShadowed(state: DialogState, text: string)
    ensures Route(state, text) != Some(ConfirmDelete)
  {
    ShadowedNeverChosen(Registered, 3, 6, state, text);
    assert forall j :: 0 <= j < |Registered| && Registered[j] == ConfirmDelete ==> j == 6;
  }

  /**
   * While a shop name is awaited, every message except /start, /help and
   * /addshop becomes the name, including /delshop, /shops and /report.
   */
  lemma NameEntryTakesMessage(text: string)
    ensures Route(AwaitingName, text) == Some(RegisterName)
            <==> !IsCommand(text, "start") && !IsCommand(text, "help") && !IsCommand(text, "addshop")
  {
    var f := FirstAccepting(Registered, AwaitingName, text);
    assert Registered[0] == CmdStart && Registered[1] == CmdHelp && Registered[2] == CmdAddShop;
    assert forall j :: 0 <= j < |Registered| && Registered[j] == RegisterName ==> j == 3;
    if !IsCommand(text, "start") && !IsCommand(text, "help") && !IsCommand(text, "addshop") {
      assert Accepts(Registered[3], AwaitingName, text);
      assert f == Some(3);
    }
  }

  /**
   * Outside a dialog, a message whose command, if any, is none of the six
   * registered commands (plain text, "/foo") is not handled.
   */
  lemma IdleIgnoresPlainText(text: string)
    requires CommandName(text).None?
             || CommandName(text).value !in {"start", "help", "addshop", "delshop", "shops", "report"}
    ensures Route(Idle, text).None?
  {
  }

  /** /addshop restarts registration from any state. */
  lemma AddShopCommandRoutes(state: DialogState)
    ensures Route(state, "/addshop") == Some(CmdAddShop)
  {
    WordOfPlain("addshop");
    assert CommandName("/addshop") == Some("addshop");
    assert Accepts(Registered[2], state, "/addshop");
  }
}
