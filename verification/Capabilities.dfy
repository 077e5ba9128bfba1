/** Execution tokens: which tools a minted token grants, to whom, and until when. */
module Capabilities {
  import opened Prelude

  const DEFAULT_AGENT := "default"
  const MANUAL := "manual"
  const AUTO := "auto"
  const TOKEN_TTL_SECONDS := 24 * 3600

  /** The read-only registries: tools with their risk, restricted tools, defined capabilities, and
      the capabilities registered for tools and agent types. */
  datatype Registries = Registries(
    tools: map<string, string>,
    restricted: set<string>,
    definitions: set<string>,
    toolCapabilities: map<string, seq<string>>,
    agentCapabilities: map<string, seq<string>>)

  /** A plan step; its tool may be missing or not a string. */
  datatype Step = Step(tool: Option<string>)

  datatype Trust = Trust(allowedTools: set<string>, autoLow: bool, autoMedium: bool)

  function LowerChar(c: char): char {
    if 'A' <= c <= 'Z' then c - 'A' + 'a' else c
  }

  function Lower(s: string): string {
    seq(|s|, i requires 0 <= i < |s| => LowerChar(s[i]))
  }

  /** Policy of a risk level: only low risk is allowed automatically. */
  predicate AutoAllowed(risk: string) {
    Lower(risk) == "low"
  }

  function Defined(r: Registries, names: seq<string>): set<string> {
    set c | c in names && c in r.definitions
  }

  function RegisteredFor(m: map<string, seq<string>>, key: string): seq<string> {
    if key in m then m[key] else []
  }

  function ToolCaps(r: Registries, tool: string): set<string> {
    Defined(r, RegisteredFor(r.toolCapabilities, tool))
  }

  /** An agent type with nothing registered gets the default type's capabilities. */
  function AgentCaps(r: Registries, agent: string): set<string> {
    var own := RegisteredFor(r.agentCapabilities, agent);
    Defined(r, if own == [] && agent != DEFAULT_AGENT then RegisteredFor(r.agentCapabilities, DEFAULT_AGENT) else own)
  }

  function ToolsOf(steps: seq<Step>): set<string> {
    set s | s in steps && s.tool.Some? :: s.tool.value
  }

  predicate AllKnown(r: Registries, steps: seq<Step>) {
    forall s :: s in steps ==> s.tool.Some? && s.tool.value in r.tools
  }

  /** Tools a user lets agents use without asking. */
  function AutoGrantable(r: Registries, trust: Option<Trust>): set<string> {
    if trust.None? then {}
    else
      var explicit := set t | t in trust.value.allowedTools && t in r.tools;
      if explicit != {} then set t | t in explicit && t !in r.restricted && AutoAllowed(r.tools[t])
      else set t | t in r.tools && t !in r.restricted
                && ((r.tools[t] == "low" && trust.value.autoLow) || (r.tools[t] == "medium" && trust.value.autoMedium))
  }

  /** All the plan's tools, or none. */
  function Grantable(r: Registries, trust: Option<Trust>, steps: seq<Step>, mode: string): set<string> {
    if !AllKnown(r, steps) then {}
    else if mode == MANUAL then ToolsOf(steps)
    else if forall t :: t in ToolsOf(steps) ==> t in AutoGrantable(r, trust) && t in r.tools && AutoAllowed(r.tools[t])
    then ToolsOf(steps)
    else {}
  }

  /** The agent's and the plan's capabilities; none when some planned tool has no capability. */
  function RequiredCaps(r: Registries, steps: seq<Step>, agent: string): set<string> {
    if exists t :: t in ToolsOf(steps) && ToolCaps(r, t) == {} then {}
    else AgentCaps(r, agent) + set t, c | t in ToolsOf(steps) && c in ToolCaps(r, t) :: c
  }

  datatype Claims = Claims(
    runId: string, userId: string, executionToken: string, issuedAt: int, expiresAt: int,
    mode: string, granted: set<string>, allowed: set<string>)

  datatype Token = Token(claims: Claims, agentType: string, hash: string)

  /** What a mint request says. */
  datatype Request = Request(
    runId: string, userId: string, steps: seq<Step>, mode: string, agent: string, trust: Option<Trust>)

  /** `hash` is any function of the claims. */
  function Mint(r: Registries, hash: Claims -> string, q: Request, now: int, uuid: NonEmpty): Option<Token> {
    var granted := Grantable(r, q.trust, q.steps, q.mode);
    if granted == {} && q.steps != [] then None
    else
      var allowed := RequiredCaps(r, q.steps, q.agent);
      if allowed == {} then None
      else if q.mode == AUTO && exists t :: t in granted && t in r.tools && !AutoAllowed(r.tools[t]) then None
      else
        var claims := Claims(q.runId, q.userId, uuid, now, now + TOKEN_TTL_SECONDS, q.mode, granted, allowed);
        Some(Token(claims, if q.agent == "" then DEFAULT_AGENT else q.agent, hash(claims)))
  }

  datatype Validation =
    | Valid(granted: set<string>, allowed: set<string>, agentType: string)
    | Rejected(error: string)

  function Validate(r: Registries, hash: Claims -> string, token: Option<Token>, runId: string, userId: string, now: int): Validation {
    if token.None? then Rejected("missing capability token")
    else
      var k := token.value.claims;
      var granted := k.granted * r.tools.Keys;
      var allowed := k.allowed * r.definitions;
      if k.runId != runId then Rejected("token run mismatch")
      else if k.userId != userId then Rejected("token user mismatch")
      else if k.executionToken == "" then Rejected("missing execution token")
      else if k.mode != MANUAL && k.mode != AUTO then Rejected("invalid approval mode")
      else if k.expiresAt <= now then Rejected("capability token expired")
      else if hash(k.(granted := granted, allowed := allowed)) != token.value.hash then
        Rejected("capability token hash mismatch")
      else Valid(granted, allowed, if token.value.agentType == "" then DEFAULT_AGENT else token.value.agentType)
  }

  predicate CheckTool(r: Registries, hash: Claims -> string, token: Option<Token>, runId: string, userId: string,
                      tool: string, now: int) {
    var v := Validate(r, hash, token, runId, userId, now);
    && v.Valid?
    && tool in v.granted
    && ToolCaps(r, tool) <= v.allowed
    && AgentCaps(r, v.agentType) <= v.allowed
    && !(ToolCaps(r, tool) == {} && tool in r.tools)
  }

  lemma GrantableKnown(r: Registries, trust: Option<Trust>, steps: seq<Step>, mode: string)
    ensures Grantable(r, trust, steps, mode) <= r.tools.Keys
    ensures Grantable(r, trust, steps, mode) == {} || Grantable(r, trust, steps, mode) == ToolsOf(steps)
  {
  }

  lemma RequiredDefined(r: Registries, steps: seq<Step>, agent: string)
    ensures RequiredCaps(r, steps, agent) <= r.definitions
    ensures RequiredCaps(r, steps, agent) != {} ==>
              && AgentCaps(r, agent) <= RequiredCaps(r, steps, agent)
              && forall t :: t in ToolsOf(steps) ==> ToolCaps(r, t) != {} && ToolCaps(r, t) <= RequiredCaps(r, steps, agent)
  {
  }

  // ---- in plain terms ---------------------------------------------------------------

  /** A defined capability registered for the tool. */
  predicate CapOf(r: Registries, tool: string, c: string) {
    c in r.definitions && tool in r.toolCapabilities && c in r.toolCapabilities[tool]
  }

  predicate Registered(r: Registries, agent: string) {
    agent in r.agentCapabilities && r.agentCapabilities[agent] != []
  }

  /** A defined capability registered for the agent type, or for the default type when the agent type
      has none registered. */
  predicate AgentCapOf(r: Registries, agent: string, c: string) {
    c in r.definitions &&
    if Registered(r, agent) then c in r.agentCapabilities[agent]
    else "default" in r.agentCapabilities && c in r.agentCapabilities["default"]
  }

  lemma CapsAre(r: Registries, tool: string, agent: string, c: string)
    ensures c in ToolCaps(r, tool) <==> CapOf(r, tool, c)
    ensures c in AgentCaps(r, agent) <==> AgentCapOf(r, agent, c)
  {
  }

  predicate Plans(steps: seq<Step>, tool: string) {
    exists i :: 0 <= i < |steps| && steps[i].tool == Some(tool)
  }

  lemma PlansIff(steps: seq<Step>, tool: string)
    ensures tool in ToolsOf(steps) <==> Plans(steps, tool)
  {
    if tool in ToolsOf(steps) {
      var s :| s in steps && s.tool == Some(tool);
      var i :| 0 <= i < |steps| && steps[i] == s;
    }
  }

  /** The word low in any mixture of cases. */
  predicate SaysLow(risk: string) {
    |risk| == 3 && risk[0] in {'l', 'L'} && risk[1] in {'o', 'O'} && risk[2] in {'w', 'W'}
  }

  lemma OnlyLowIsAutomatic(risk: string)
    ensures AutoAllowed(risk) <==> SaysLow(risk)
  {
    if Lower(risk) == "low" {
      assert Lower(risk)[0] == 'l' && Lower(risk)[1] == 'o' && Lower(risk)[2] == 'w';
    }
    if SaysLow(risk) {
      assert Lower(risk) == [LowerChar(risk[0]), LowerChar(risk[1]), LowerChar(risk[2])];
    }
  }

  /** The user has listed some registered tool. */
  predicate HasList(r: Registries, trust: Trust) {
    exists t :: t in trust.allowedTools && t in r.tools
  }

  /** Exactly which tools a user lets agents use without asking: registered and unrestricted ones; of
      them, if the user has listed any registered tool, the listed ones of low risk, else those of low
      or medium risk for which the user has ticked the box. */
  lemma AutoGrantableIff(r: Registries, trust: Option<Trust>, t: string)
    ensures t in AutoGrantable(r, trust) <==>
              && trust.Some? && t in r.tools && t !in r.restricted
              && (if HasList(r, trust.value) then t in trust.value.allowedTools && SaysLow(r.tools[t])
                  else (r.tools[t] == "low" && trust.value.autoLow) || (r.tools[t] == "medium" && trust.value.autoMedium))
  {
    if t in r.tools {
      OnlyLowIsAutomatic(r.tools[t]);
    }
    if trust.Some? {
      var explicit := set x | x in trust.value.allowedTools && x in r.tools;
      if HasList(r, trust.value) {
        var x :| x in trust.value.allowedTools && x in r.tools;
        assert x in explicit;
      } else {
        assert explicit == {};
      }
    }
  }

  /** A tool that may be granted without asking the user. */
  predicate Unasked(r: Registries, trust: Option<Trust>, t: string) {
    && trust.Some? && t in r.tools && t !in r.restricted && SaysLow(r.tools[t])
    && (if HasList(r, trust.value) then t in trust.value.allowedTools else r.tools[t] == "low" && trust.value.autoLow)
  }

  lemma UnaskedIff(r: Registries, trust: Option<Trust>, t: string)
    ensures Unasked(r, trust, t) <==> t in AutoGrantable(r, trust) && t in r.tools && AutoAllowed(r.tools[t])
  {
    AutoGrantableIff(r, trust, t);
    if t in r.tools {
      OnlyLowIsAutomatic(r.tools[t]);
    }
  }

  /** The tool of every step is registered, and outside manual approval one that needs no asking. */
  predicate PlanGrantable(r: Registries, trust: Option<Trust>, steps: seq<Step>, mode: string) {
    forall i :: 0 <= i < |steps| ==>
      && steps[i].tool.Some? && steps[i].tool.value in r.tools
      && (mode == "manual" || Unasked(r, trust, steps[i].tool.value))
  }

  lemma GrantsAll(r: Registries, trust: Option<Trust>, steps: seq<Step>, mode: string)
    requires PlanGrantable(r, trust, steps, mode)
    ensures Grantable(r, trust, steps, mode) == ToolsOf(steps)
  {
    forall s | s in steps ensures s.tool.Some? && s.tool.value in r.tools {
      var i :| 0 <= i < |steps| && steps[i] == s;
    }
    if mode != "manual" {
      forall t | t in ToolsOf(steps) ensures t in AutoGrantable(r, trust) && t in r.tools && AutoAllowed(r.tools[t]) {
        PlansIff(steps, t);
        var i :| 0 <= i < |steps| && steps[i].tool == Some(t);
        UnaskedIff(r, trust, t);
      }
    }
  }

  lemma GrantsNothing(r: Registries, trust: Option<Trust>, steps: seq<Step>, mode: string)
    requires !PlanGrantable(r, trust, steps, mode)
    ensures Grantable(r, trust, steps, mode) == {} && steps != []
  {
    var i :| 0 <= i < |steps|
      && !(steps[i].tool.Some? && steps[i].tool.value in r.tools
           && (mode == "manual" || Unasked(r, trust, steps[i].tool.value)));
    assert steps[i] in steps;
    if steps[i].tool.Some? && steps[i].tool.value in r.tools {
      UnaskedIff(r, trust, steps[i].tool.value);
      assert steps[i].tool.value in ToolsOf(steps);
    }
  }

  // ---- what is minted ------------------------------------------------------------------

  /** What a minted token holds: the plan's tools, and exactly the capabilities of its agent type and of
      the plan's tools; a day to live. */
  lemma MintedHolds(r: Registries, hash: Claims -> string, q: Request, now: int, uuid: NonEmpty)
    requires Mint(r, hash, q, now, uuid).Some?
    ensures var token := Mint(r, hash, q, now, uuid).value; var k := token.claims;
            && (forall t :: t in k.granted <==> Plans(q.steps, t))
            && (forall c :: c in k.allowed <==>
                  AgentCapOf(r, q.agent, c) || exists t :: Plans(q.steps, t) && CapOf(r, t, c))
            && k.runId == q.runId && k.userId == q.userId && k.mode == q.mode && k.executionToken == uuid
            && k.issuedAt == now && k.expiresAt == now + 86400
            && token.agentType == (if q.agent == "" then "default" else q.agent) && token.hash == hash(k)
  {
    GrantableKnown(r, q.trust, q.steps, q.mode);
    var k := Mint(r, hash, q, now, uuid).value.claims;
    MintedSets(r, hash, q, now, uuid);
    forall t ensures t in k.granted <==> Plans(q.steps, t) {
      PlansIff(q.steps, t);
    }
    forall c ensures c in k.allowed <==> AgentCapOf(r, q.agent, c) || exists t :: Plans(q.steps, t) && CapOf(r, t, c) {
      AllowedIff(r, q.steps, q.agent, c);
    }
  }

  lemma AllowedIff(r: Registries, steps: seq<Step>, agent: string, c: string)
    requires RequiredCaps(r, steps, agent) != {}
    ensures c in RequiredCaps(r, steps, agent) <==>
              AgentCapOf(r, agent, c) || exists t :: Plans(steps, t) && CapOf(r, t, c)
  {
    CapsAre(r, "", agent, c);
    if t :| t in ToolsOf(steps) && c in ToolCaps(r, t) {
      PlansIff(steps, t);
      CapsAre(r, t, agent, c);
    }
    if t :| Plans(steps, t) && CapOf(r, t, c) {
      PlansIff(steps, t);
      CapsAre(r, t, agent, c);
    }
  }

  lemma MintedSets(r: Registries, hash: Claims -> string, q: Request, now: int, uuid: NonEmpty)
    requires Mint(r, hash, q, now, uuid).Some?
    ensures var k := Mint(r, hash, q, now, uuid).value.claims;
            && k.granted == ToolsOf(q.steps) && k.granted <= r.tools.Keys
            && k.allowed == RequiredCaps(r, q.steps, q.agent) != {} && k.allowed <= r.definitions
            && (forall t :: t in ToolsOf(q.steps) ==> ToolCaps(r, t) != {} && ToolCaps(r, t) <= k.allowed)
            && AgentCaps(r, q.agent) <= k.allowed
  {
    GrantableKnown(r, q.trust, q.steps, q.mode);
    RequiredDefined(r, q.steps, q.agent);
  }

  /** Exactly when a token is minted: every step's tool is registered and, outside manual approval, one
      that needs no asking; every planned tool has a defined capability; and there is at least one
      capability to claim. */
  lemma MintedIff(r: Registries, hash: Claims -> string, q: Request, now: int, uuid: NonEmpty)
    ensures Mint(r, hash, q, now, uuid).Some? <==>
              && PlanGrantable(r, q.trust, q.steps, q.mode)
              && (forall t :: Plans(q.steps, t) ==> exists c :: CapOf(r, t, c))
              && (q.steps == [] ==> exists c :: AgentCapOf(r, q.agent, c))
  {
    if PlanGrantable(r, q.trust, q.steps, q.mode) {
      GrantsAll(r, q.trust, q.steps, q.mode);
      MintedFromGranted(r, hash, q, now, uuid);
    } else {
      GrantsNothing(r, q.trust, q.steps, q.mode);
    }
  }

  lemma AllCapable(r: Registries, steps: seq<Step>)
    ensures (forall t :: t in ToolsOf(steps) ==> ToolCaps(r, t) != {}) <==>
            (forall t :: Plans(steps, t) ==> exists c :: CapOf(r, t, c))
  {
    forall t ensures t in ToolsOf(steps) <==> Plans(steps, t) {
      PlansIff(steps, t);
    }
    forall t ensures ToolCaps(r, t) != {} <==> exists c :: CapOf(r, t, c) {
      if c :| c in ToolCaps(r, t) {
        CapsAre(r, t, "", c);
      }
      if c :| CapOf(r, t, c) {
        CapsAre(r, t, "", c);
        assert c in ToolCaps(r, t);
      }
    }
  }

  lemma MintedFromGranted(r: Registries, hash: Claims -> string, q: Request, now: int, uuid: NonEmpty)
    requires PlanGrantable(r, q.trust, q.steps, q.mode) && Grantable(r, q.trust, q.steps, q.mode) == ToolsOf(q.steps)
    ensures Mint(r, hash, q, now, uuid).Some? <==>
              && (forall t :: Plans(q.steps, t) ==> exists c :: CapOf(r, t, c))
              && (q.steps == [] ==> exists c :: AgentCapOf(r, q.agent, c))
  {
    var tools, allowed := ToolsOf(q.steps), RequiredCaps(r, q.steps, q.agent);
    AllCapable(r, q.steps);
    assert q.mode == AUTO ==> forall t :: t in tools ==> AutoAllowed(r.tools[t]) by {
      forall t | t in tools && q.mode == AUTO ensures AutoAllowed(r.tools[t]) {
        PlansIff(q.steps, t);
        var i :| 0 <= i < |q.steps| && q.steps[i].tool == Some(t);
        OnlyLowIsAutomatic(r.tools[t]);
      }
    }
    if q.steps != [] {
      assert q.steps[0] in q.steps && q.steps[0].tool.value in tools;
      if forall t :: t in tools ==> ToolCaps(r, t) != {} {
        var c :| c in ToolCaps(r, q.steps[0].tool.value);
        assert c in allowed;
      }
    } else {
      assert tools == {} && allowed == AgentCaps(r, q.agent);
      if c :| AgentCapOf(r, q.agent, c) {
        CapsAre(r, "", q.agent, c);
        assert c in allowed;
      }
      if allowed != {} {
        var c :| c in allowed;
        CapsAre(r, "", q.agent, c);
      }
    }
  }

  /** Whenever a token is minted outside manual approval, every tool it grants is registered, of low
      risk, unrestricted, and one its user lets agents use: listed if the user lists tools, else by the
      box for low risk. */
  lemma AutomaticGrantsAreSafe(r: Registries, hash: Claims -> string, q: Request, now: int, uuid: NonEmpty, tool: string)
    requires Mint(r, hash, q, now, uuid).Some? && q.mode != "manual"
    requires tool in Mint(r, hash, q, now, uuid).value.claims.granted
    ensures tool in r.tools && SaysLow(r.tools[tool]) && tool !in r.restricted && q.trust.Some?
    ensures if HasList(r, q.trust.value) then tool in q.trust.value.allowedTools
            else r.tools[tool] == "low" && q.trust.value.autoLow
  {
    MintedIff(r, hash, q, now, uuid);
    MintedHolds(r, hash, q, now, uuid);
    var i :| 0 <= i < |q.steps| && q.steps[i].tool == Some(tool);
  }

  // ---- what is checked -----------------------------------------------------------------

  /** The claims a token is checked by: tools and capabilities that are no longer known are dropped. */
  function Known(r: Registries, k: Claims): Claims {
    k.(granted := (set t | t in k.granted && t in r.tools), allowed := (set c | c in k.allowed && c in r.definitions))
  }

  /** Exactly which tokens pass, whoever made them: for this run and user, with an execution token, in a
      known approval mode, not expired, signed for the claims they are checked by, granting a registered
      tool that has a capability, and covering the capabilities of the tool and of the agent type. */
  lemma CheckIff(r: Registries, hash: Claims -> string, token: Option<Token>, runId: string, userId: string,
                 tool: string, now: int)
    ensures CheckTool(r, hash, token, runId, userId, tool, now) <==>
              && token.Some?
              && var k := token.value.claims;
              && k.runId == runId && k.userId == userId && k.executionToken != ""
              && k.mode in {"manual", "auto"} && now < k.expiresAt
              && token.value.hash == hash(Known(r, k))
              && tool in k.granted && tool in r.tools
              && (exists c :: CapOf(r, tool, c))
              && (forall c :: CapOf(r, tool, c) ==> c in k.allowed)
              && (forall c :: AgentCapOf(r, if token.value.agentType == "" then "default" else token.value.agentType, c)
                    ==> c in k.allowed)
  {
    if token.Some? {
      var k := token.value.claims;
      var agent := if token.value.agentType == "" then "default" else token.value.agentType;
      assert k.granted * r.tools.Keys == Known(r, k).granted && k.allowed * r.definitions == Known(r, k).allowed;
      CoversIff(r, tool, agent, k.allowed);
    }
  }

  lemma CoversIff(r: Registries, tool: string, agent: string, allowed: set<string>)
    ensures ToolCaps(r, tool) <= allowed * r.definitions <==> forall c :: CapOf(r, tool, c) ==> c in allowed
    ensures AgentCaps(r, agent) <= allowed * r.definitions <==> forall c :: AgentCapOf(r, agent, c) ==> c in allowed
    ensures ToolCaps(r, tool) != {} <==> exists c :: CapOf(r, tool, c)
  {
    forall c ensures (c in ToolCaps(r, tool) <==> CapOf(r, tool, c)) && (c in AgentCaps(r, agent) <==> AgentCapOf(r, agent, c)) {
      CapsAre(r, tool, agent, c);
    }
    if c :| CapOf(r, tool, c) {
      assert c in ToolCaps(r, tool);
    }
    if ToolCaps(r, tool) != {} {
      var c :| c in ToolCaps(r, tool);
      assert CapOf(r, tool, c);
    }
  }

  /** With a hash that does not collide, a token that carries the signature of a minted one passes only
      with the minted claims: nothing in them can be altered. */
  lemma AlteredTokenFails(r: Registries, hash: Claims -> string, q: Request, now: int, uuid: NonEmpty, token: Token,
                          runId: string, userId: string, tool: string, later: int)
    requires Mint(r, hash, q, now, uuid).Some?
    requires forall a, b :: hash(a) == hash(b) ==> a == b
    requires token.hash == Mint(r, hash, q, now, uuid).value.hash
    requires CheckTool(r, hash, Some(token), runId, userId, tool, later)
    ensures Known(r, token.claims) == Mint(r, hash, q, now, uuid).value.claims
  {
    CheckIff(r, hash, Some(token), runId, userId, tool, later);
    MintedHolds(r, hash, q, now, uuid);
  }

  // ---- mint and check agree ----------------------------------------------------

  /** For every minted token, run, user, tool and time: the check passes exactly for its own run and
      user, within a day, for the tools of the plan, in a known approval mode. Only for an empty agent
      type does a further condition remain: the default agent's capabilities, which the check then asks
      for, must be among those the token was minted with. */
  lemma CheckPassesIff(r: Registries, hash: Claims -> string, q: Request, now: int, uuid: NonEmpty,
                       runId: string, userId: string, tool: string, later: int)
    requires Mint(r, hash, q, now, uuid).Some?
    ensures CheckTool(r, hash, Mint(r, hash, q, now, uuid), runId, userId, tool, later) <==>
              && runId == q.runId && userId == q.userId
              && later < now + 86400
              && q.mode in {"manual", "auto"}
              && Plans(q.steps, tool)
              && (q.agent == "" ==>
                    forall c :: AgentCapOf(r, "default", c) ==>
                      AgentCapOf(r, "", c) || exists t :: Plans(q.steps, t) && CapOf(r, t, c))
  {
    MintedHolds(r, hash, q, now, uuid);
    MintedIsKnown(r, hash, q, now, uuid);
    var token := Mint(r, hash, q, now, uuid);
    CheckIff(r, hash, token, runId, userId, tool, later);
    if Plans(q.steps, tool) {
      MintedCoversTool(r, hash, q, now, uuid, tool);
    }
    MintedCoversAgent(r, hash, q, now, uuid);
  }

  lemma MintedIsKnown(r: Registries, hash: Claims -> string, q: Request, now: int, uuid: NonEmpty)
    requires Mint(r, hash, q, now, uuid).Some?
    ensures var k := Mint(r, hash, q, now, uuid).value.claims; Known(r, k) == k
  {
    MintedSets(r, hash, q, now, uuid);
    var k := Mint(r, hash, q, now, uuid).value.claims;
    assert Known(r, k).granted == k.granted && Known(r, k).allowed == k.allowed;
  }

  lemma MintedCoversTool(r: Registries, hash: Claims -> string, q: Request, now: int, uuid: NonEmpty, tool: string)
    requires Mint(r, hash, q, now, uuid).Some? && Plans(q.steps, tool)
    ensures var k := Mint(r, hash, q, now, uuid).value.claims;
            && tool in r.tools && (exists c :: CapOf(r, tool, c))
            && (forall c :: CapOf(r, tool, c) ==> c in k.allowed)
  {
    MintedIff(r, hash, q, now, uuid);
    MintedHolds(r, hash, q, now, uuid);
    var i :| 0 <= i < |q.steps| && q.steps[i].tool == Some(tool);
  }

  lemma MintedCoversAgent(r: Registries, hash: Claims -> string, q: Request, now: int, uuid: NonEmpty)
    requires Mint(r, hash, q, now, uuid).Some?
    ensures var token := Mint(r, hash, q, now, uuid).value;
            && token.agentType != ""
            && ((forall c :: AgentCapOf(r, token.agentType, c) ==> c in token.claims.allowed) <==>
                (q.agent == "" ==>
                   forall c :: AgentCapOf(r, "default", c) ==>
                     AgentCapOf(r, "", c) || exists t :: Plans(q.steps, t) && CapOf(r, t, c)))
  {
    MintedHolds(r, hash, q, now, uuid);
    var token := Mint(r, hash, q, now, uuid).value;
    if q.agent != "" {
      assert forall c :: AgentCapOf(r, q.agent, c) ==> c in token.claims.allowed;
    }
  }

  // ---- the loops -----------------------------------------------------------------

  lemma ToolsOfSnoc(steps: seq<Step>, s: Step)
    ensures ToolsOf(steps + [s]) == ToolsOf(steps) + (if s.tool.Some? then {s.tool.value} else {})
  {
    assert forall x :: x in steps + [s] <==> x in steps || x == s;
  }

  /** Go through the registry, keeping the unrestricted tools whose box is ticked; or through the user's
      list, if it names any registered tool. */
  method GetAutoGrantableTools(r: Registries, trust: Option<Trust>) returns (allowed: set<string>)
    ensures allowed == AutoGrantable(r, trust)
  {
    if trust.None? {
      return {};
    }
    var explicit := set t | t in trust.value.allowedTools && t in r.tools;
    if explicit != {} {
      return set t | t in explicit && t !in r.restricted && AutoAllowed(r.tools[t]);
    }
    allowed := {};
    var left := r.tools.Keys;
    while left != {}
      invariant left <= r.tools.Keys
      invariant forall t :: t in allowed <==>
                  && t in r.tools && t !in left && t !in r.restricted
                  && ((r.tools[t] == "low" && trust.value.autoLow) || (r.tools[t] == "medium" && trust.value.autoMedium))
      decreases left
    {
      var t :| t in left;
      left := left - {t};
      if t !in r.restricted {
        if r.tools[t] == "low" && trust.value.autoLow {
          allowed := allowed + {t};
        } else if r.tools[t] == "medium" && trust.value.autoMedium {
          allowed := allowed + {t};
        }
      }
    }
  }

  /** Collect the plan's tools, giving up at the first unknown one, then check each against the
      automatic allowance. */
  method GetGrantableTools(r: Registries, trust: Option<Trust>, steps: seq<Step>, mode: string) returns (granted: set<string>)
    ensures granted == Grantable(r, trust, steps, mode)
  {
    var tools := {};
    var i := 0;
    while i < |steps|
      invariant i <= |steps|
      invariant AllKnown(r, steps[..i]) && tools == ToolsOf(steps[..i])
    {
      var tool := steps[i].tool;
      if tool.None? || tool.value !in r.tools {
        assert steps[i] in steps;
        return {};
      }
      assert steps[..i + 1] == steps[..i] + [steps[i]];
      ToolsOfSnoc(steps[..i], steps[i]);
      tools := tools + {tool.value};
      i := i + 1;
    }
    assert steps[..i] == steps;
    if mode == MANUAL {
      return tools;
    }
    var allowed := GetAutoGrantableTools(r, trust);
    var left := tools;
    while left != {}
      invariant left <= tools
      invariant forall t :: t in tools - left ==> t in allowed && t in r.tools && AutoAllowed(r.tools[t])
      decreases left
    {
      var t :| t in left;
      if t !in allowed || !AutoAllowed(r.tools[t]) {
        return {};
      }
      left := left - {t};
    }
    granted := tools;
  }

  /** Add up capabilities step by step, giving up at the first tool without any. */
  method GetPlanRequiredCapabilities(r: Registries, steps: seq<Step>, agent: string) returns (caps: set<string>)
    ensures caps == RequiredCaps(r, steps, agent)
  {
    caps := AgentCaps(r, agent);
    var i := 0;
    while i < |steps|
      invariant i <= |steps|
      invariant forall t :: t in ToolsOf(steps[..i]) ==> ToolCaps(r, t) != {}
      invariant forall c :: c in caps <==>
                  c in AgentCaps(r, agent) || exists t :: t in ToolsOf(steps[..i]) && c in ToolCaps(r, t)
    {
      assert steps[..i + 1] == steps[..i] + [steps[i]];
      ToolsOfSnoc(steps[..i], steps[i]);
      if steps[i].tool.Some? {
        var more := ToolCaps(r, steps[i].tool.value);
        if more == {} {
          assert steps[i] in steps;
          assert steps[i].tool.value in ToolsOf(steps);
          return {};
        }
        caps := caps + more;
      }
      i := i + 1;
    }
    assert steps[..i] == steps;
  }
}
