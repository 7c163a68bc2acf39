/** How a turn of the specialist dialogue ends, in terms of what the models say. */
module DialogueTurns {
  import opened Wrappers
  import opened Dialogue

  /** The rules of a handoff, all at once. */
  ghost predicate InOrderAt(d: Decision, source: string, at: Position) {
    && Unique(at.visited) && Unique(at.sources)
    && (at.depth == 0 ==> at.round == 0 && at.sources == [])
    && (at.depth == 1 ==> at.sources != [] && (at.round >= 2 ==> d.handoffs == []))
    && (at.depth == 2 ==> at.sources == [] && d.handoffs == [])
    && forall h | h in d.handoffs :: MayAsk(h.role, source, at)
  }

  /** Nobody asks itself; a first turn asks only new roles, and a recipient only those who asked it. */
  predicate MayAsk(target: string, source: string, at: Position) {
    target != source && (at.depth == 0 ==> target !in at.visited) && (at.depth == 1 ==> target in at.sources)
  }

  lemma {:induction false} TargetsIff(d: Decision, rest: seq<Handing>, source: string, at: Position)
    ensures ValidateTargets(d, rest, source, at).Ok? <==> forall h | h in rest :: MayAsk(h.role, source, at)
  {
    if rest != [] {
      TargetsIff(d, rest[1..], source, at);
      assert rest == [rest[0]] + rest[1..];
    }
  }

  /** A decision is accepted exactly when it keeps all the rules, and then unchanged. */
  lemma AcceptedIff(d: Decision, source: string, at: Position)
    ensures ValidateHandoffs(d, source, at).Ok? <==> InOrderAt(d, source, at)
    ensures ValidateHandoffs(d, source, at).Ok? ==> ValidateHandoffs(d, source, at).value == d
  {
    TargetsIff(d, d.handoffs, source, at);
  }

  /** The decision as the bounds leave it. */
  function Bounded(d: Decision, at: Position, turn: nat, limit: nat): Decision {
    if d.action != Continue || (at.depth != 2 && turn < limit) then d
    else d.(action := if at.depth == 2 then Reply else Clarify, instruction := "")
  }

  /** What one turn comes to: a well-typed decision, bounded, if it keeps the rules; a malformed one is no answer. */
  lemma EndpointTable(env: Env, k: nat, role: string, at: Position, turn: nat)
    ensures Endpoint(env, k, role, at, turn) ==
            match env.ask(k)
            case Unavailable => Unavailable
            case Refused => Refused
            case Says(d) =>
              if !WellTyped(d) then Unavailable
              else if InOrderAt(Bounded(d, at, turn, env.limit), role, at) then Says(Bounded(d, at, turn, env.limit))
              else Refused
  {
    if env.ask(k).Says? {
      AcceptedIff(Bounded(env.ask(k).decision, at, turn, env.limit), role, at);
    }
  }

  predicate Continues(r: Reaction) { r.Says? && r.decision.action == Continue }

  /** The next `n` turns all continue. */
  ghost predicate TalksOn(env: Env, role: string, at: Position, turn: nat, k: nat, n: nat)
    decreases n
  {
    n == 0 || (Continues(Endpoint(env, k, role, at, turn)) && TalksOn(env, role, at, turn + 1, k + 1, n - 1))
  }

  /** What the last reaction makes of a turn: its decision, or nothing; silence is for the fallback role. */
  function Ending(env: Env, role: string, at: Position, allowFallback: bool, k: nat, last: Reaction): TurnResult {
    match last
    case Says(d) => TurnResult(Some((role, d)), k + 1)
    case Refused => TurnResult(None, k + 1)
    case Unavailable =>
      if allowFallback && role in env.fallback then SpecialistTurn(env, env.fallback[role], at, false, 0, k + 1)
      else TurnResult(None, k + 1)
  }

  /** A turn goes on as long as it continues, and ends with the first reaction that does not: with that decision, or
      with nothing; only if that reaction is silence, the fallback role takes over, once and from the start. */
  lemma {:induction false} TurnEnds(env: Env, role: string, at: Position, allowFallback: bool, turn: nat, k: nat,
                                    n: nat)
    requires turn <= env.limit && TalksOn(env, role, at, turn, k, n)
    requires !Continues(Endpoint(env, k + n, role, at, turn + n))
    ensures SpecialistTurn(env, role, at, allowFallback, turn, k)
         == Ending(env, role, at, allowFallback, k + n, Endpoint(env, k + n, role, at, turn + n))
    decreases n
  {
    if n == 0 {
      LastTurn(env, role, at, allowFallback, turn, k);
    } else {
      OneMoreTurn(env, role, at, allowFallback, turn, k);
      TurnEnds(env, role, at, allowFallback, turn + 1, k + 1, n - 1);
    }
  }

  lemma OneMoreTurn(env: Env, role: string, at: Position, allowFallback: bool, turn: nat, k: nat)
    requires turn <= env.limit && Continues(Endpoint(env, k, role, at, turn))
    ensures turn < env.limit
    ensures SpecialistTurn(env, role, at, allowFallback, turn, k)
         == SpecialistTurn(env, role, at, allowFallback, turn + 1, k + 1)
  {
  }

  lemma LastTurn(env: Env, role: string, at: Position, allowFallback: bool, turn: nat, k: nat)
    requires turn <= env.limit && !Continues(Endpoint(env, k, role, at, turn))
    ensures SpecialistTurn(env, role, at, allowFallback, turn, k)
         == Ending(env, role, at, allowFallback, k, Endpoint(env, k, role, at, turn))
  {
  }

  /** And it always ends: within the turns that are left. */
  lemma {:induction false} TurnDoesEnd(env: Env, role: string, at: Position, turn: nat, k: nat) returns (n: nat)
    requires turn <= env.limit
    ensures turn + n <= env.limit && TalksOn(env, role, at, turn, k, n)
    ensures !Continues(Endpoint(env, k + n, role, at, turn + n))
    decreases env.limit - turn
  {
    n := 0;
    if Continues(Endpoint(env, k, role, at, turn)) {
      var m := TurnDoesEnd(env, role, at, turn + 1, k + 1);
      n := m + 1;
    }
  }
}
