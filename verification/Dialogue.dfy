/** The specialist dialogue for one owner message: the nested turns of
    src/agent_team/adapters/discord.py under the bounds of src/agent_team/coordination.py.
    What the models say is an arbitrary function of the number of turns taken so far. */
module Dialogue {
  import opened Wrappers

  datatype Action = Reply | Clarify | Continue | RecommendTask | RequestApproval | Handoff

  datatype Handing = Handing(role: string, instruction: string, reason: string)

  datatype Decision = Decision(action: Action, reply: string, instruction: string, handoffs: seq<Handing>)

  /** The typed output contract: only a handoff names targets, at most two, each once. */
  predicate WellTyped(d: Decision) {
    && (d.action.Handoff? <==> d.handoffs != [])
    && |d.handoffs| <= 2
    && (|d.handoffs| == 2 ==> d.handoffs[0].role != d.handoffs[1].role)
  }

  datatype Position = Position(depth: nat, round: nat, sources: seq<string>, visited: seq<string>)

  function BoundContinuation(d: Decision, depth: nat, turn: nat, limit: nat): (r: Decision)
    ensures r.action.Continue? ==> depth != 2 && turn < limit && r == d
    ensures !d.action.Continue? || (depth != 2 && turn < limit) ==> r == d
    ensures d.action.Continue? && depth == 2 ==> r.action == Reply && r.instruction == ""
    ensures d.action.Continue? && depth != 2 && turn >= limit ==> r.action == Clarify && r.instruction == ""
    ensures WellTyped(d) ==> WellTyped(r)
    ensures r.handoffs == d.handoffs && r.reply == d.reply
  {
    if !d.action.Continue? then d
    else if depth == 2 then d.(action := Reply, instruction := "")
    else if turn >= limit then d.(action := Clarify, instruction := "")
    else d
  }

  predicate Unique(roles: seq<string>) {
    forall i, j | 0 <= i < j < |roles| :: roles[i] != roles[j]
  }

  function ValidateHandoffs(d: Decision, source: string, at: Position): (r: Result<Decision, string>)
    ensures r.Ok? ==> r.value == d && Permitted(d, source, at)
  {
    if !Unique(at.visited) then Err("Visited specialist roles must be unique")
    else if !Unique(at.sources) then Err("Handoff source roles must be unique")
    else if at.depth == 0 && (at.round != 0 || at.sources != []) then
      Err("Initial specialist turn cannot have handoff dialogue state")
    else if at.depth == 1 && at.sources == [] then Err("A handoff recipient requires at least one source role")
    else if at.depth == 2 && at.sources != [] then Err("A handoff answer turn cannot open another dialogue")
    else if at.depth == 2 && d.handoffs != [] then Err("A handoff answer cannot delegate")
    else if at.depth == 1 && at.round >= 2 && d.handoffs != [] then Err("Specialist handoff round-trip limit exceeded")
    else ValidateTargets(d, d.handoffs, source, at)
  }

  function ValidateTargets(d: Decision, rest: seq<Handing>, source: string, at: Position): (r: Result<Decision, string>)
    ensures r.Ok? ==> r.value == d && forall h | h in rest :: TargetAllowed(h.role, source, at)
  {
    if rest == [] then Ok(d)
    else if rest[0].role == source then Err("A specialist cannot hand off to itself")
    else if at.depth == 0 && (rest[0].role in at.visited || rest[0].role == source) then
      Err("Specialist handoff would duplicate an existing assignment")
    else if at.depth == 1 && rest[0].role !in at.sources then
      Err("A handoff recipient may only question its source specialists")
    else ValidateTargets(d, rest[1..], source, at)
  }

  predicate TargetAllowed(target: string, source: string, at: Position) {
    && target != source
    && (at.depth == 0 ==> target !in at.visited)
    && (at.depth == 1 ==> target in at.sources)
  }

  /** What an accepted decision may hand off. */
  ghost predicate Permitted(d: Decision, source: string, at: Position) {
    && (at.depth == 2 ==> d.handoffs == [])
    && forall h | h in d.handoffs :: TargetAllowed(h.role, source, at)
  }

  /** One call of the turn endpoint, after its bounded retries. `Refused` covers a guard's refusal,
      an undeliverable reply and every exception of the turn. */
  datatype Reaction = Unavailable | Refused | Says(decision: Decision)

  datatype Env = Env(ask: nat -> Reaction, fallback: map<string, string>, limit: nat)

  function Endpoint(env: Env, k: nat, role: string, at: Position, turn: nat): (r: Reaction)
    ensures r.Says? ==> Permitted(r.decision, role, at) && WellTyped(r.decision)
                        && (r.decision.action.Continue? ==> at.depth != 2 && turn < env.limit)
  {
    match env.ask(k)
    case Unavailable => Unavailable
    case Refused => Refused
    case Says(d) =>
      if !WellTyped(d) then Unavailable
      else
        match ValidateHandoffs(BoundContinuation(d, at.depth, turn, env.limit), role, at)
        case Ok(bounded) => Says(bounded)
        case Err(_) => Refused
  }

  datatype TurnResult = TurnResult(answer: Option<(string, Decision)>, next: nat)

  /** specialist_turn: falling back restarts the continuation count, but only once. */
  function SpecialistTurn(env: Env, role: string, at: Position, allowFallback: bool, turn: nat, k: nat): TurnResult
    requires turn <= env.limit
    decreases allowFallback, env.limit - turn
  {
    match Endpoint(env, k, role, at, turn)
    case Unavailable =>
      if allowFallback && role in env.fallback then
        SpecialistTurn(env, env.fallback[role], at, false, 0, k + 1)
      else TurnResult(None, k + 1)
    case Refused => TurnResult(None, k + 1)
    case Says(d) =>
      if d.action.Continue? then SpecialistTurn(env, role, at, allowFallback, turn + 1, k + 1)
      else TurnResult(Some((role, d)), k + 1)
  }

  /** The number of turns one call may still take. */
  function TurnsLeft(env: Env, depth: nat, allowFallback: bool, turn: nat): nat
    requires turn <= env.limit
  {
    if depth == 2 then (if allowFallback then 2 else 1)
    else (env.limit - turn + 1) + if allowFallback then env.limit + 1 else 0
  }

  lemma {:induction false} TurnBound(env: Env, role: string, at: Position, allowFallback: bool, turn: nat, k: nat)
    requires turn <= env.limit
    ensures k < SpecialistTurn(env, role, at, allowFallback, turn, k).next
              <= k + TurnsLeft(env, at.depth, allowFallback, turn)
    decreases allowFallback, env.limit - turn
  {
    match Endpoint(env, k, role, at, turn)
    case Unavailable =>
      if allowFallback && role in env.fallback {
        TurnBound(env, env.fallback[role], at, false, 0, k + 1);
      }
    case Refused =>
    case Says(d) =>
      if d.action.Continue? {
        TurnBound(env, role, at, allowFallback, turn + 1, k + 1);
      }
  }

  /** What a turn finally answers never continues and hands off only within the rules. */
  lemma {:induction false} AnswerIsPermitted(env: Env, role: string, at: Position, allowFallback: bool, turn: nat,
                                             k: nat)
    requires turn <= env.limit
    ensures var answer := SpecialistTurn(env, role, at, allowFallback, turn, k).answer;
            answer.Some? ==>
              && !answer.value.1.action.Continue? && WellTyped(answer.value.1)
              && Permitted(answer.value.1, answer.value.0, at)
    decreases allowFallback, env.limit - turn
  {
    match Endpoint(env, k, role, at, turn)
    case Unavailable =>
      if allowFallback && role in env.fallback {
        AnswerIsPermitted(env, env.fallback[role], at, false, 0, k + 1);
      }
    case Refused =>
    case Says(d) =>
      if d.action.Continue? {
        AnswerIsPermitted(env, role, at, allowFallback, turn + 1, k + 1);
      }
  }

  // ----- the bound is reached -----

  const TALKATIVE := Decision(Continue, "more", "go on", [])

  function Worst(limit: nat): Env {
    Env(k => if k == limit then Unavailable else Says(TALKATIVE), map["qa" := "cto"], limit)
  }

  lemma {:induction false} Chatter(limit: nat, role: string, at: Position, allowFallback: bool, turn: nat, k: nat)
    requires at.depth == 0 && at.round == 0 && at.sources == [] && at.visited == []
    requires turn <= limit && if allowFallback then role == "qa" && k == turn else k == limit + 1 + turn
    ensures SpecialistTurn(Worst(limit), role, at, allowFallback, turn, k).next == 2 * (limit + 1)
    decreases allowFallback, limit - turn
  {
    var env := Worst(limit);
    if turn < limit {
      assert Endpoint(env, k, role, at, turn) == Says(TALKATIVE);
      Chatter(limit, role, at, allowFallback, turn + 1, k + 1);
    } else if allowFallback {
      Chatter(limit, "cto", at, false, 0, k + 1);
    }
  }

  lemma BoundIsTight(limit: nat)
    ensures Worst(limit).limit == limit
    ensures SpecialistTurn(Worst(limit), "qa", Position(0, 0, [], []), true, 0, 0).next == 2 * (limit + 1)
  {
    Chatter(limit, "qa", Position(0, 0, [], []), true, 0, 0);
  }

  // ----- collecting the handoffs -----

  datatype Request = Request(source: string, instruction: string, reason: string, reply: string)
  datatype Dispatch = Dispatch(role: string, requests: seq<Request>)

  /** Every handoff that counts, in order: not to an initial role and not to its own source. */
  function Accepted(initial: set<string>, decisions: seq<(string, Decision)>): seq<(string, Request)> {
    if decisions == [] then []
    else
      var last := decisions[|decisions| - 1];
      Accepted(initial, decisions[..|decisions| - 1]) + AcceptedFrom(initial, last.0, last.1.reply, last.1.handoffs)
  }

  /** One handoff, if it counts. */
  function AcceptedOne(initial: set<string>, source: string, reply: string, h: Handing): seq<(string, Request)> {
    if h.role != source && h.role !in initial then [(h.role, Request(source, h.instruction, h.reason, reply))] else []
  }

  function AcceptedFrom(initial: set<string>, source: string, reply: string, handoffs: seq<Handing>)
    : (r: seq<(string, Request)>)
    ensures |r| <= |handoffs|
  {
    if handoffs == [] then []
    else
      AcceptedFrom(initial, source, reply, handoffs[..|handoffs| - 1])
      + AcceptedOne(initial, source, reply, handoffs[|handoffs| - 1])
  }

  lemma AcceptedSnoc(earlier: seq<(string, Request)>, initial: set<string>, source: string, reply: string,
                     handoffs: seq<Handing>, h: nat)
    requires h < |handoffs|
    ensures earlier + AcceptedFrom(initial, source, reply, handoffs[..h + 1])
         == earlier + AcceptedFrom(initial, source, reply, handoffs[..h])
            + AcceptedOne(initial, source, reply, handoffs[h])
  {
    assert handoffs[..h + 1][..h] == handoffs[..h];
  }

  function For(accepted: seq<(string, Request)>, role: string): seq<Request> {
    if accepted == [] then []
    else
      var last := accepted[|accepted| - 1];
      For(accepted[..|accepted| - 1], role) + if last.0 == role then [last.1] else []
  }

  /** The place of the first request for the role, past the end when nobody made one. */
  function FirstFor(accepted: seq<(string, Request)>, role: string): (r: nat)
    ensures r <= |accepted| && forall i | 0 <= i < r :: accepted[i].0 != role
    ensures r < |accepted| ==> accepted[r].0 == role
  {
    if accepted == [] then 0
    else
      var last := |accepted| - 1;
      var before := FirstFor(accepted[..last], role);
      if before == last && accepted[last].0 != role then |accepted| else before
  }

  /** The roles that somebody handed work to, each where it was first named. */
  function Roles(accepted: seq<(string, Request)>): seq<string> {
    if accepted == [] then []
    else
      var before := Roles(accepted[..|accepted| - 1]);
      var role := accepted[|accepted| - 1].0;
      if role in before then before else before + [role]
  }

  function Group(accepted: seq<(string, Request)>): map<string, seq<Request>> {
    if accepted == [] then map[]
    else
      var before := Group(accepted[..|accepted| - 1]);
      var (role, request) := accepted[|accepted| - 1];
      before[role := (if role in before then before[role] else []) + [request]]
  }

  /** One dispatch for each of them, with everything that was asked. */
  function DispatchesOf(accepted: seq<(string, Request)>): seq<Dispatch> {
    var roles := Roles(accepted);
    seq(|roles|, i requires 0 <= i < |roles| => Dispatch(roles[i], For(accepted, roles[i])))
  }

  /** A role is listed exactly when somebody asked for it, and then its group is all that was asked. */
  lemma {:induction false} RoleAsked(accepted: seq<(string, Request)>, role: string)
    ensures role in Roles(accepted) <==> FirstFor(accepted, role) < |accepted|
    ensures role in Roles(accepted) <==> For(accepted, role) != []
    ensures role in Roles(accepted) <==> role in Group(accepted)
    ensures role in Group(accepted) ==> Group(accepted)[role] == For(accepted, role)
  {
    if accepted != [] {
      RoleAsked(accepted[..|accepted| - 1], role);
    }
  }

  lemma {:induction false} RolesInOrder(accepted: seq<(string, Request)>, i: nat, j: nat)
    requires i < j < |Roles(accepted)|
    ensures FirstFor(accepted, Roles(accepted)[i]) < FirstFor(accepted, Roles(accepted)[j]) < |accepted|
  {
    var before := accepted[..|accepted| - 1];
    RoleAsked(before, Roles(accepted)[i]);
    RoleAsked(accepted, Roles(accepted)[j]);
    if j < |Roles(before)| {
      RolesInOrder(before, i, j);
    } else {
      RoleAsked(before, Roles(accepted)[j]);
    }
  }

  /** resolve_specialist_handoffs, up to the wording of the prompts: one dispatch for each role that
      somebody handed work to, by the place of the first request for it, holding every request in order. */
  method ResolveHandoffs(initialRoles: seq<string>, decisions: seq<(string, Decision)>)
    returns (dispatches: seq<Dispatch>)
    requires forall d | d in decisions :: |d.1.handoffs| <= 2
    ensures var accepted := Accepted((set r | r in initialRoles), decisions);
            && (forall i | 0 <= i < |dispatches| ::
                  dispatches[i].requests == For(accepted, dispatches[i].role) != [])
            && (forall role | For(accepted, role) != [] ::
                  exists i :: 0 <= i < |dispatches| && dispatches[i].role == role)
    ensures var accepted := Accepted((set r | r in initialRoles), decisions);
            && (forall i | 0 <= i < |dispatches| :: FirstFor(accepted, dispatches[i].role) < |accepted|)
            && (forall i, j | 0 <= i < j < |dispatches| ::
                  FirstFor(accepted, dispatches[i].role) < FirstFor(accepted, dispatches[j].role))
    ensures dispatches == DispatchesOf(Accepted((set r | r in initialRoles), decisions))
    ensures |dispatches| <= 2 * |decisions|
  {
    var initial := set r | r in initialRoles;
    var grouped: map<string, seq<Request>> := map[];
    var order: seq<string> := [];
    for k := 0 to |decisions|
      invariant order == Roles(Accepted(initial, decisions[..k]))
      invariant grouped == Group(Accepted(initial, decisions[..k]))
      invariant |order| <= 2 * k
    {
      assert decisions[k] in decisions && decisions[..k + 1][..k] == decisions[..k];
      ghost var earlier := Accepted(initial, decisions[..k]);
      var (source, decision) := decisions[k];
      grouped, order := GroupDecision(initial, source, decision.reply, decision.handoffs, grouped, order, earlier);
    }
    assert decisions[..|decisions|] == decisions;
    dispatches := DispatchAll(order, grouped, Accepted(initial, decisions));
  }

  /** The closing comprehension: one dispatch for each key in turn. */
  method DispatchAll(order: seq<string>, grouped: map<string, seq<Request>>, ghost accepted: seq<(string, Request)>)
    returns (dispatches: seq<Dispatch>)
    requires order == Roles(accepted) && grouped == Group(accepted)
    ensures |dispatches| == |order| && dispatches == DispatchesOf(accepted)
    ensures forall i | 0 <= i < |order| :: dispatches[i].requests == For(accepted, dispatches[i].role) != []
    ensures forall i | 0 <= i < |order| :: FirstFor(accepted, dispatches[i].role) < |accepted|
    ensures forall i, j | 0 <= i < j < |order| ::
              FirstFor(accepted, dispatches[i].role) < FirstFor(accepted, dispatches[j].role)
    ensures forall role | For(accepted, role) != [] ::
              exists i :: 0 <= i < |dispatches| && dispatches[i].role == role
  {
    dispatches := [];
    for i := 0 to |order|
      invariant |dispatches| == i
      invariant forall j | 0 <= j < i :: dispatches[j] == Dispatch(order[j], For(accepted, order[j]))
      invariant forall j | 0 <= j < i :: For(accepted, order[j]) != []
    {
      RoleAsked(accepted, order[i]);
      dispatches := dispatches + [Dispatch(order[i], grouped[order[i]])];
    }
    assert forall i | 0 <= i < |order| :: dispatches[i].role == order[i];
    forall i | 0 <= i < |order| ensures FirstFor(accepted, dispatches[i].role) < |accepted| {
      RoleAsked(accepted, dispatches[i].role);
    }
    forall i, j | 0 <= i < j < |order|
      ensures FirstFor(accepted, dispatches[i].role) < FirstFor(accepted, dispatches[j].role)
    {
      RolesInOrder(accepted, i, j);
    }
    forall role | For(accepted, role) != []
      ensures exists i :: 0 <= i < |dispatches| && dispatches[i].role == role
    {
      RoleAsked(accepted, role);
      var i :| 0 <= i < |order| && order[i] == role;
      assert dispatches[i].role == role;
    }
  }

  /** The inner loop over one decision's handoffs. */
  method GroupDecision(initial: set<string>, source: string, reply: string, handoffs: seq<Handing>,
                       before: map<string, seq<Request>>, orderBefore: seq<string>,
                       ghost earlier: seq<(string, Request)>)
    returns (grouped: map<string, seq<Request>>, order: seq<string>)
    requires orderBefore == Roles(earlier) && before == Group(earlier)
    ensures order == Roles(earlier + AcceptedFrom(initial, source, reply, handoffs))
    ensures grouped == Group(earlier + AcceptedFrom(initial, source, reply, handoffs))
    ensures |order| <= |orderBefore| + |handoffs|
  {
    grouped, order := before, orderBefore;
    ghost var accepted := earlier;
    for h := 0 to |handoffs|
      invariant accepted == earlier + AcceptedFrom(initial, source, reply, handoffs[..h])
      invariant order == Roles(accepted) && grouped == Group(accepted)
      invariant |order| <= |orderBefore| + h
    {
      AcceptedSnoc(earlier, initial, source, reply, handoffs, h);
      grouped, order := TakeHandoff(initial, source, reply, handoffs[h], grouped, order, accepted);
      accepted := accepted + AcceptedOne(initial, source, reply, handoffs[h]);
    }
    assert handoffs[..|handoffs|] == handoffs;
  }

  /** The body of that loop. */
  method TakeHandoff(initial: set<string>, source: string, reply: string, handoff: Handing,
                     before: map<string, seq<Request>>, orderBefore: seq<string>,
                     ghost accepted: seq<(string, Request)>)
    returns (grouped: map<string, seq<Request>>, order: seq<string>)
    requires orderBefore == Roles(accepted) && before == Group(accepted)
    ensures order == Roles(accepted + AcceptedOne(initial, source, reply, handoff))
    ensures grouped == Group(accepted + AcceptedOne(initial, source, reply, handoff))
    ensures |order| <= |orderBefore| + 1
  {
    grouped, order := before, orderBefore;
    if handoff.role != source && handoff.role !in initial {
      var request := Request(source, handoff.instruction, handoff.reason, reply);
      grouped, order := AddRequest(grouped, order, handoff.role, request, accepted);
    } else {
      assert accepted + [] == accepted;
    }
  }

  /** One more request, under a new key when it is the first for its role. */
  method AddRequest(before: map<string, seq<Request>>, orderBefore: seq<string>, role: string, request: Request,
                    ghost accepted: seq<(string, Request)>)
    returns (grouped: map<string, seq<Request>>, order: seq<string>)
    requires orderBefore == Roles(accepted) && before == Group(accepted)
    ensures order == Roles(accepted + [(role, request)]) && grouped == Group(accepted + [(role, request)])
    ensures |order| <= |orderBefore| + 1
  {
    assert (accepted + [(role, request)])[..|accepted|] == accepted;
    RoleAsked(accepted, role);
    grouped, order := before, orderBefore;
    if role !in grouped {
      grouped := grouped[role := []];
      order := order + [role];
    }
    grouped := grouped[role := grouped[role] + [request]];
  }

  // ----- the whole conversation -----

  /** The turns in which the first `n` questions are answered: where they end, and how many had an answer. */
  function AskAll(env: Env, questions: seq<Handing>, at: Position, k: nat): (r: (nat, nat))
    ensures r.1 <= |questions|
  {
    if questions == [] then (k, 0)
    else
      var last := |questions| - 1;
      var (next, answered) := AskAll(env, questions[..last], at, k);
      var answer := SpecialistTurn(env, questions[last].role, at, true, 0, next);
      (answer.next, answered + if answer.answer.Some? then 1 else 0)
  }

  /** The rounds from `round` on: the recipient's turn, and as long as it hands off, the answers to its questions. */
  function Rounds(env: Env, role: string, sources: seq<string>, visited: seq<string>, round: nat, k: nat): nat
    decreases 2 - round
  {
    if round >= 2 then k
    else
      var recipient := SpecialistTurn(env, role, Position(1, round, sources, visited), true, 0, k);
      if recipient.answer.None? || !recipient.answer.value.1.action.Handoff? then recipient.next
      else
        var (next, answered) :=
          AskAll(env, recipient.answer.value.1.handoffs, Position(2, round, [], visited), recipient.next);
        if answered == 0 then next else Rounds(env, role, sources, visited, round + 1, next)
  }

  function SourcesOf(dispatch: Dispatch): seq<string> {
    seq(|dispatch.requests|, i requires 0 <= i < |dispatch.requests| => dispatch.requests[i].source)
  }

  /** run_handoff_dialogue: two rounds of one recipient and the specialists it questions. */
  method RunHandoffDialogue(env: Env, dispatch: Dispatch, visited: seq<string>, k: nat) returns (next: nat)
    ensures next == Rounds(env, dispatch.role, SourcesOf(dispatch), visited, 0, k)
    ensures k < next <= k + 2 * (2 * (env.limit + 1) + 4)
  {
    next := k;
    var sources := SourcesOf(dispatch);
    ghost var last := Rounds(env, dispatch.role, sources, visited, 0, k);
    for round := 0 to 2
      invariant k <= next <= k + round * (2 * (env.limit + 1) + 4) && (round > 0 ==> k < next)
      invariant Rounds(env, dispatch.role, sources, visited, round, next) == last
    {
      var more;
      more, next := RunRound(env, dispatch.role, sources, visited, round, next);
      if !more {
        return;
      }
    }
  }

  /** One round; another follows when the recipient asked and somebody answered. */
  method RunRound(env: Env, role: string, sources: seq<string>, visited: seq<string>, round: nat, k: nat)
    returns (more: bool, next: nat)
    requires round < 2
    ensures k < next <= k + 2 * (env.limit + 1) + 4
    ensures Rounds(env, role, sources, visited, round, k)
         == if more then Rounds(env, role, sources, visited, round + 1, next) else next
  {
    var at := Position(1, round, sources, visited);
    TurnBound(env, role, at, true, 0, k);
    AnswerIsPermitted(env, role, at, true, 0, k);
    var recipient := SpecialistTurn(env, role, at, true, 0, k);
    if recipient.answer.None? || !recipient.answer.value.1.action.Handoff? {
      return false, recipient.next;
    }
    var questions := recipient.answer.value.1.handoffs;
    var answered;
    next, answered := AnswerQuestions(env, questions, Position(2, round, [], visited), recipient.next);
    more := answered > 0;
  }

  /** The answers of one round. */
  method AnswerQuestions(env: Env, questions: seq<Handing>, at: Position, k: nat) returns (next: nat, answered: nat)
    requires at.depth == 2
    ensures (next, answered) == AskAll(env, questions, at, k)
    ensures k + |questions| <= next <= k + 2 * |questions|
  {
    next, answered := k, 0;
    for q := 0 to |questions|
      invariant (next, answered) == AskAll(env, questions[..q], at, k)
      invariant k + q <= next <= k + 2 * q
    {
      TurnBound(env, questions[q].role, at, true, 0, next);
      var answer := SpecialistTurn(env, questions[q].role, at, true, 0, next);
      assert questions[..q + 1][..q] == questions[..q];
      next := answer.next;
      if answer.answer.Some? {
        answered := answered + 1;
      }
    }
    assert questions[..|questions|] == questions;
  }

  /** The first turns of the delegated specialists: what was answered, and where the turns end. */
  function FirstTurns(env: Env, delegated: seq<string>, at: Position): (seq<(string, Decision)>, nat) {
    if delegated == [] then ([], 0)
    else
      var (completed, turns) := FirstTurns(env, delegated[..|delegated| - 1], at);
      var r := SpecialistTurn(env, delegated[|delegated| - 1], at, true, 0, turns);
      (completed + if r.answer.Some? then [r.answer.value] else [], r.next)
  }

  /** The first turn of every delegated specialist. */
  method InitialTurns(env: Env, delegated: seq<string>) returns (completed: seq<(string, Decision)>, turns: nat)
    ensures (completed, turns) == FirstTurns(env, delegated, Position(0, 0, [], delegated))
    ensures |delegated| <= turns <= |delegated| * (2 * (env.limit + 1))
    ensures |completed| <= |delegated| && forall c | c in completed :: |c.1.handoffs| <= 2
  {
    turns, completed := 0, [];
    var at := Position(0, 0, [], delegated);
    for i := 0 to |delegated|
      invariant (completed, turns) == FirstTurns(env, delegated[..i], at)
      invariant i <= turns <= i * (2 * (env.limit + 1)) && |completed| <= i
      invariant forall c | c in completed :: |c.1.handoffs| <= 2
    {
      TurnBound(env, delegated[i], at, true, 0, turns);
      AnswerIsPermitted(env, delegated[i], at, true, 0, turns);
      var r := SpecialistTurn(env, delegated[i], at, true, 0, turns);
      OneMore(i, 2 * (env.limit + 1));
      assert delegated[..i + 1][..i] == delegated[..i];
      turns := r.next;
      if r.answer.Some? {
        completed := completed + [r.answer.value];
      } else {
        assert completed + [] == completed;
      }
    }
    assert delegated[..|delegated|] == delegated;
  }

  /** The dialogues of these dispatches, one after the other. */
  function Dialogues(env: Env, dispatches: seq<Dispatch>, visited: seq<string>, k: nat): nat {
    if dispatches == [] then k
    else
      var last := dispatches[|dispatches| - 1];
      Rounds(env, last.role, SourcesOf(last), visited, 0, Dialogues(env, dispatches[..|dispatches| - 1], visited, k))
  }

  function Targets(dispatches: seq<Dispatch>): seq<string> {
    seq(|dispatches|, i requires 0 <= i < |dispatches| => dispatches[i].role)
  }

  /** All turns that one delegating message sets off. */
  function AllTurns(env: Env, delegated: seq<string>): nat {
    var (completed, turns) := FirstTurns(env, delegated, Position(0, 0, [], delegated));
    var dispatches := DispatchesOf(Accepted((set r | r in delegated), completed));
    Dialogues(env, dispatches, delegated + Targets(dispatches), turns)
  }

  /** Everything one delegating owner message can set off. */
  method HandleDelegations(env: Env, delegated: seq<string>) returns (turns: nat)
    ensures turns == AllTurns(env, delegated)
    ensures |delegated| <= turns
    ensures turns <= |delegated| * (2 * (env.limit + 1)) + 2 * |delegated| * (2 * (2 * (env.limit + 1) + 4))
  {
    var completed;
    completed, turns := InitialTurns(env, delegated);
    var dispatches := ResolveHandoffs(delegated, completed);
    var visited := delegated + Targets(dispatches);
    turns := RunDialogues(env, dispatches, visited, turns);
    AtMost(|dispatches|, 2 * |delegated|, 2 * (2 * (env.limit + 1) + 4));
  }

  method RunDialogues(env: Env, dispatches: seq<Dispatch>, visited: seq<string>, k: nat) returns (turns: nat)
    ensures turns == Dialogues(env, dispatches, visited, k)
    ensures k <= turns <= k + |dispatches| * (2 * (2 * (env.limit + 1) + 4))
  {
    turns := k;
    for j := 0 to |dispatches|
      invariant turns == Dialogues(env, dispatches[..j], visited, k)
      invariant k <= turns <= k + j * (2 * (2 * (env.limit + 1) + 4))
    {
      OneMore(j, 2 * (2 * (env.limit + 1) + 4));
      assert dispatches[..j + 1][..j] == dispatches[..j];
      turns := RunHandoffDialogue(env, dispatches[j], visited, turns);
    }
    assert dispatches[..|dispatches|] == dispatches;
  }

  lemma OneMore(i: nat, x: nat)
    ensures (i + 1) * x == i * x + x
  {}

  lemma AtMost(i: nat, j: nat, x: nat)
    requires i <= j
    ensures i * x <= j * x
  {}
}
