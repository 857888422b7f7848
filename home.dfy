/**
 * The Home page: the user's macro totals, fetched and reset through the
 * ledger endpoints and replaced wholesale by what the server confirms, plus
 * the panel, selected-hall and tutorial flags.
 */
module Home {
  import opened Wrappers
  import AuthContext

  /** Running nutrition totals. */
  datatype Macros = Macros(calories: real, protein: real, carbs: real, fat: real)

  const ZeroMacros := Macros(0.0, 0.0, 0.0, 0.0)

  /**
   * How a ledger request ends: `getIdToken` rejecting before anything is
   * sent, a non-ok status with its error text, an ok status with the parsed
   * body's `macros` field (absent or null as `None`), or an exception after
   * the request was sent (network or parse failure). The failures are only
   * logged.
   */
  datatype MacroResponse = TokenFailed | NotOk(errorText: string) | Ok(macros: Option<Macros>) | Threw

  /** Whether the handler got as far as calling `fetch`. */
  predicate Sent(response: MacroResponse) {
    !response.TokenFailed?
  }

  /** The request a handler sends: a GET of the totals, or a POST with `{uid}`. */
  datatype MacroRequest = GetMacros | ResetMacros(uid: string)

  /** `setMacros(data.macros || zero)` on success; nothing on failure. */
  function AdoptedMacros(current: Macros, response: MacroResponse): (adopted: Macros)
    ensures adopted == current || response.Ok?
    ensures response.Ok? && response.macros.Some? ==> adopted == response.macros.value
  {
    match response
    case Ok(Some(m)) => m
    case Ok(None) => ZeroMacros
    case TokenFailed => current
    case NotOk(_) => current
    case Threw => current
  }

  /** A confirmed response replaces the totals without looking at the old ones. */
  lemma AdoptedReplacesWholesale(a: Macros, b: Macros, response: MacroResponse)
    requires response.Ok?
    ensures AdoptedMacros(a, response) == AdoptedMacros(b, response)
    ensures response.macros.Some? ==> AdoptedMacros(a, response) == response.macros.value
    ensures response.macros.None? ==> AdoptedMacros(a, response) == ZeroMacros
  {
  }

  /** A failed request leaves the totals as they were. */
  lemma FailureKeepsMacros(current: Macros, response: MacroResponse)
    requires !response.Ok?
    ensures AdoptedMacros(current, response) == current
  {
  }

  /** The Home component's state. */
  class HomeState {
    var macros: Macros
    var showMacros: bool
    var selectedComponent: string
    var runTutorial: bool

    constructor ()
      ensures macros == ZeroMacros && !showMacros
      ensures selectedComponent == "Steast" && !runTutorial
    {
      macros := ZeroMacros;
      showMacros := false;
      selectedComponent := "Steast";
      runTutorial := false;
    }

    /**
     * `fetchUserMacros`: without a user, or when the token cannot be had, no
     * request is made and nothing changes.
     */
    method FetchUserMacros(user: Option<AuthContext.User>, response: MacroResponse)
      returns (request: Option<MacroRequest>)
      modifies this`macros
      ensures user.None? || !Sent(response) ==> request.None? && macros == old(macros)
      ensures user.Some? && Sent(response) ==>
                request == Some(GetMacros) && macros == AdoptedMacros(old(macros), response)
    {
      if user.None? || !Sent(response) {
        return None;
      }
      request := Some(GetMacros);
      macros := AdoptedMacros(macros, response);
    }

    /** `handleResetMacros`: the POST carries the user's uid; same guards and adoption rule. */
    method HandleResetMacros(user: Option<AuthContext.User>, response: MacroResponse)
      returns (request: Option<MacroRequest>)
      modifies this`macros
      ensures user.None? || !Sent(response) ==> request.None? && macros == old(macros)
      ensures user.Some? && Sent(response) ==>
                request == Some(ResetMacros(user.value.uid)) && macros == AdoptedMacros(old(macros), response)
    {
      if user.None? || !Sent(response) {
        return None;
      }
      request := Some(ResetMacros(user.value.uid));
      macros := AdoptedMacros(macros, response);
    }

    /** `handleMacroClick`: flips the panel and always fetches, also when closing it. */
    method HandleMacroClick(user: Option<AuthContext.User>, response: MacroResponse)
      returns (request: Option<MacroRequest>)
      modifies this`showMacros, this`macros
      ensures showMacros == !old(showMacros)
      ensures user.None? || !Sent(response) ==> request.None? && macros == old(macros)
      ensures user.Some? && Sent(response) ==>
                request == Some(GetMacros) && macros == AdoptedMacros(old(macros), response)
    {
      showMacros := !showMacros;
      request := FetchUserMacros(user, response);
    }

    /** `handleJoyrideCallback`: only 'finished' and 'skipped' stop the tutorial. */
    method HandleJoyrideCallback(status: string)
      modifies this`runTutorial
      ensures status == "finished" || status == "skipped" ==> !runTutorial
      ensures status != "finished" && status != "skipped" ==> runTutorial == old(runTutorial)
    {
      var finishedStatuses := ["finished", "skipped"];
      if status in finishedStatuses {
        runTutorial := false;
      }
    }

    /** The "Start Tutorial" button. */
    method StartTutorial()
      modifies this`runTutorial
      ensures runTutorial
    {
      runTutorial := true;
    }

    /** The "Steast" and "IV" buttons. */
    method SelectComponent(name: string)
      modifies this`selectedComponent
      ensures selectedComponent == name
    {
      selectedComponent := name;
    }
  }
}
