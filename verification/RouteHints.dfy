/** Routing hints carried by client requests (pkg/holonrpc/routing.go, parseRouteHints). */
module RouteHints {
  import opened Text
  import opened RpcTypes
  import opened Wrappers

  datatype Mode = Default | BroadcastResponse | FullBroadcast

  /** `target` is empty when the request names no peer. */
  datatype Hints = Hints(target: string, mode: Mode)

  datatype Parsed = Parsed(methodName: string, fanOut: bool, cleaned: Params, hints: Hints)

  datatype ParseResult = Accepted(parsed: Parsed) | Rejected(err: ResponseError)

  const ROUTING := "_routing"
  const PEER := "_peer"
  const FAN_OUT := "*."

  const NoHints: Hints := Hints("", Default)

  function ModeOf(text: string): Option<Mode> {
    if text == "" then Some(Default)
    else if text == "broadcast-response" then Some(BroadcastResponse)
    else if text == "full-broadcast" then Some(FullBroadcast)
    else None
  }

  function BadRequest(text: string): ParseResult {
    Rejected(ResponseError(INVALID_REQUEST, text, Null))
  }

  function BadParams(text: string): ParseResult {
    Rejected(ResponseError(INVALID_PARAMS, text, Null))
  }

  // ----- what each part of the request asks for -----

  /** The mode asked for; None when the hint is unusable. */
  function RequestedMode(params: Params): Option<Mode> {
    if ROUTING !in params then Some(Default)
    else if params[ROUTING].Str? then ModeOf(TrimSpace(params[ROUTING].s))
    else None
  }

  /** The peer asked for, empty for none; None when the hint is unusable. */
  function RequestedPeer(params: Params): Option<string> {
    if PEER !in params then Some("")
    else if params[PEER].Str? && TrimSpace(params[PEER].s) != "" then Some(TrimSpace(params[PEER].s))
    else None
  }

  predicate RequestsFanOut(methodName: string) {
    HasPrefix(TrimSpace(methodName), FAN_OUT)
  }

  function DispatchMethod(methodName: string): string {
    var t := TrimSpace(methodName);
    if HasPrefix(t, FAN_OUT) then TrimSpace(t[2..]) else t
  }

  /** A request that the hub will dispatch: both hints usable, a method left
      over, and full-broadcast only together with fan-out. */
  predicate Dispatchable(methodName: string, params: Params) {
    && DispatchMethod(methodName) != ""
    && RequestedMode(params).Some?
    && RequestedPeer(params).Some?
    && (RequestedMode(params) == Some(FullBroadcast) ==> RequestsFanOut(methodName))
  }

  function WithoutHints(params: Params): Params {
    params - {ROUTING, PEER}
  }

  function ParseError(methodName: string, params: Params): ParseResult
    requires !Dispatchable(methodName, params)
  {
    if TrimSpace(methodName) == "" then BadRequest("invalid request")
    else if RequestedMode(params).None? then
      BadParams(if params[ROUTING].Str? then "unsupported _routing " + TrimSpace(params[ROUTING].s)
                else "_routing must be a string")
    else if RequestedPeer(params).None? then
      BadParams(if params[PEER].Str? then "_peer must be non-empty" else "_peer must be a string")
    else if DispatchMethod(methodName) == "" then BadRequest("invalid fan-out method")
    else BadParams("full-broadcast requires a fan-out method")
  }

  /** The split of a request into what is dispatched and how. */
  function ParseHints(methodName: string, params: Params): ParseResult {
    if Dispatchable(methodName, params) then
      Accepted(Parsed(DispatchMethod(methodName), RequestsFanOut(methodName), WithoutHints(params),
                      Hints(RequestedPeer(params).value, RequestedMode(params).value)))
    else ParseError(methodName, params)
  }

  /** The copying loop at the start of parseRouteHints. */
  method CopyParams(params: Params) returns (cleaned: Params)
    ensures cleaned == params
  {
    cleaned := map[];
    var left := params.Keys;
    while left != {}
      invariant left <= params.Keys
      invariant cleaned.Keys == params.Keys - left
      invariant forall k :: k in cleaned ==> cleaned[k] == params[k]
      decreases left
    {
      var k :| k in left;
      cleaned := cleaned[k := params[k]];
      left := left - {k};
    }
  }

  /** parseRouteHints: works on its own copy of the caller's map. */
  method ParseRouteHints(methodName: string, params: Params) returns (r: ParseResult)
    ensures r == ParseHints(methodName, params)
  {
    var trimmedMethod := TrimSpace(methodName);
    if trimmedMethod == "" {
      return BadRequest("invalid request");
    }

    var cleaned := CopyParams(params);

    var hints := NoHints;
    if ROUTING in cleaned {
      if !cleaned[ROUTING].Str? {
        return BadParams("_routing must be a string");
      }
      var mode := ModeOf(TrimSpace(cleaned[ROUTING].s));
      if mode.None? {
        return BadParams("unsupported _routing " + TrimSpace(cleaned[ROUTING].s));
      }
      hints := hints.(mode := mode.value);
      cleaned := cleaned - {ROUTING};
    }
    if PEER in cleaned {
      if !cleaned[PEER].Str? {
        return BadParams("_peer must be a string");
      }
      var peerID := TrimSpace(cleaned[PEER].s);
      if peerID == "" {
        return BadParams("_peer must be non-empty");
      }
      hints := hints.(target := peerID);
      cleaned := cleaned - {PEER};
    }
    assert cleaned == WithoutHints(params);

    var fanOut := HasPrefix(trimmedMethod, FAN_OUT);
    if fanOut {
      trimmedMethod := TrimSpace(trimmedMethod[|FAN_OUT|..]);
      if trimmedMethod == "" {
        return BadRequest("invalid fan-out method");
      }
    }
    if hints.mode.FullBroadcast? && !fanOut {
      return BadParams("full-broadcast requires a fan-out method");
    }
    return Accepted(Parsed(trimmedMethod, fanOut, cleaned, hints));
  }

  /** A successful parse is a clean split: the hints are gone, every other
      parameter is kept, the method is trimmed and not empty, a peer is named
      exactly when the hint is there, and full-broadcast comes with fan-out. */
  lemma CleanSplit(methodName: string, params: Params)
    requires ParseHints(methodName, params).Accepted?
    ensures var p := ParseHints(methodName, params).parsed;
      && ROUTING !in p.cleaned && PEER !in p.cleaned
      && p.cleaned.Keys == params.Keys - {ROUTING, PEER}
      && (forall k :: k in p.cleaned ==> p.cleaned[k] == params[k])
      && p.methodName != "" && Trimmed(p.methodName)
      && Trimmed(p.hints.target) && (p.hints.target != "" <==> PEER in params)
      && (p.hints.mode.FullBroadcast? ==> p.fanOut)
  {
  }

  /** The mode is what the hint's text says, in so many letters; any other text
      and any hint that is not a string is refused as bad params. */
  lemma ModeIsTheText(methodName: string, params: Params)
    ensures ParseHints(methodName, params).Accepted? ==>
      var mode := ParseHints(methodName, params).parsed.hints.mode;
      && (mode == BroadcastResponse <==> "_routing" in params && SaysText(params["_routing"], "broadcast-response"))
      && (mode == FullBroadcast <==> "_routing" in params && SaysText(params["_routing"], "full-broadcast"))
      && (mode == Default <==> "_routing" !in params || SaysText(params["_routing"], ""))
    ensures TrimSpace(methodName) != "" && "_routing" in params
      && !SaysText(params["_routing"], "") && !SaysText(params["_routing"], "broadcast-response")
      && !SaysText(params["_routing"], "full-broadcast")
      ==> ParseHints(methodName, params).Rejected? && ParseHints(methodName, params).err.code == -32602
  {
  }

  predicate SaysText(j: Json, text: string) {
    j.Str? && TrimSpace(j.s) == text
  }

  /** The rest of the split in terms of the request: the prefix and the peer. */
  lemma SplitIsTheRequest(methodName: string, params: Params)
    requires ParseHints(methodName, params).Accepted?
    ensures var p, t := ParseHints(methodName, params).parsed, TrimSpace(methodName);
      && (p.fanOut <==> |t| >= 2 && t[0] == '*' && t[1] == '.')
      && p.methodName == (if p.fanOut then TrimSpace(t[2..]) else t)
      && (if "_peer" in params then SaysText(params["_peer"], p.hints.target) && p.hints.target != ""
          else p.hints.target == "")
  {
  }

  /** Parsing the output again changes nothing and finds no hints, exactly
      when the dispatched method does not itself ask for fan-out. */
  lemma ReparseIsIdentity(methodName: string, params: Params)
    requires ParseHints(methodName, params).Accepted?
    ensures var p := ParseHints(methodName, params).parsed;
      ParseHints(p.methodName, p.cleaned) == Accepted(Parsed(p.methodName, false, p.cleaned, NoHints))
      <==> !HasPrefix(p.methodName, FAN_OUT)
  {
    var p := ParseHints(methodName, params).parsed;
    CleanSplit(methodName, params);
    assert WithoutHints(p.cleaned) == p.cleaned;
  }

  /** The condition above is needed: a doubled fan-out prefix is stripped only once. */
  lemma DoubledPrefixIsStrippedOnce(methodName: string)
    requires methodName != "" && Trimmed(methodName)
    ensures RequestsFanOut("*.*." + methodName)
    ensures DispatchMethod("*.*." + methodName) == "*." + methodName
    ensures RequestsFanOut("*." + methodName)
  {
    var once, twice := "*." + methodName, "*.*." + methodName;
    assert Trimmed(once) && Trimmed(twice);
    assert twice[2..] == once;
  }
}
