// The browser sign-in flow (internal/auth/oidc_web.go, internal/db/queries/oauth_states.sql): a state
// row is created when the browser leaves and deleted as it is read when the browser comes back.

module BrowserFlow {
  import opened Core

  // oauthStateTTL, ten minutes.
  const STATE_TTL: Time := 600

  datatype Ticket = Ticket(nonce: string, verifier: string, provider: string, redirect: Option<string>)

  datatype Row = Row(ticket: Ticket, expiresAt: Time)

  // A start as it was recorded, kept for ever; an exchange as it reached the provider.
  datatype Started = Started(ticket: Ticket, at: Time)
  datatype Exchange = Exchange(state: string, ticket: Ticket, at: Time)

  datatype History = History(starts: map<string, Started>, spent: set<string>, exchanges: map<RequestId, Exchange>)

  datatype State = State(now: Time, configured: set<string>, rows: map<string, Row>, flight: set<RequestId>,
                         history: History)

  datatype Action =
    | Tick(to: Time)
    | Configure(providers: set<string>)
    | Start(state: string, ticket: Ticket, at: Time)
    | Callback(req: RequestId, state: string, code: string)
    | Exchanged(req: RequestId)     // the provider answered, with claims or with an error
    | Abort(req: RequestId)
    | Sweep

  function Init(now: Time, configured: set<string>): State {
    State(now, configured, map[], {}, History(map[], {}, map[]))
  }

  // States are fresh random tokens; the expiry was computed at `at`, before the INSERT.
  predicate Enabled(s: State, a: Action) {
    match a
    case Tick(to) => s.now <= to
    case Configure(_) => true
    case Start(state, ticket, at) =>
      state != "" && state !in s.history.starts && ticket.provider in s.configured && at <= s.now
    case Callback(r, _, _) => r !in s.flight && r !in s.history.exchanges
    case Exchanged(r) => r in s.flight
    case Abort(r) => r in s.flight
    case Sweep => true
  }

  // ConsumeOAuthState: WHERE state = $1 AND expires_at > now()
  predicate Consumable(s: State, state: string, code: string) {
    state != "" && code != "" && state in s.rows && s.rows[state].expiresAt > s.now
  }

  function DeleteExpired(rows: map<string, Row>, now: Time): map<string, Row> {
    map state | state in rows && rows[state].expiresAt > now :: rows[state]
  }

  function CallbackStep(s: State, r: RequestId, state: string, code: string): State {
    if !Consumable(s, state, code) then s
    else
      var ticket := s.rows[state].ticket;
      var spent := s.(rows := s.rows - {state}, history := s.history.(spent := s.history.spent + {state}));
      if ticket.provider !in s.configured then spent
      else spent.(flight := s.flight + {r},
                  history := spent.history.(exchanges := s.history.exchanges[r := Exchange(state, ticket, s.now)]))
  }

  function Step(s: State, a: Action): State
    requires Enabled(s, a)
  {
    match a
    case Tick(to) => s.(now := to)
    case Configure(providers) => s.(configured := providers)
    case Start(state, ticket, at) =>
      s.(rows := s.rows[state := Row(ticket, at + STATE_TTL)],
         history := s.history.(starts := s.history.starts[state := Started(ticket, at)]))
    case Callback(r, state, code) => CallbackStep(s, r, state, code)
    case Exchanged(r) => s.(flight := s.flight - {r})
    case Abort(r) => s.(flight := s.flight - {r})
    case Sweep => s.(rows := DeleteExpired(s.rows, s.now))
  }

  ghost predicate Runs(s: State, run: seq<Action>)
    decreases |run|
  {
    run == [] || (Enabled(s, run[0]) && Runs(Step(s, run[0]), run[1..]))
  }

  ghost function Exec(s: State, run: seq<Action>): State
    requires Runs(s, run)
    decreases |run|
  {
    if run == [] then s else Exec(Step(s, run[0]), run[1..])
  }

  // ----- Invariants -----

  predicate RowOk(s: State, state: string)
    requires state in s.rows
  {
    && state in s.history.starts && state !in s.history.spent
    && s.rows[state] == Row(s.history.starts[state].ticket, s.history.starts[state].at + STATE_TTL)
  }

  // The exchange answers an earlier start, with everything that start recorded, inside its life.
  predicate AnswersStart(h: History, e: Exchange) {
    && e.state in h.starts && e.state in h.spent
    && e.ticket == h.starts[e.state].ticket
    && h.starts[e.state].at <= e.at < h.starts[e.state].at + 600
  }

  ghost predicate Inv(s: State) {
    && (forall state <- s.rows :: RowOk(s, state))
    && (forall state <- s.history.starts :: s.history.starts[state].at <= s.now)
    && s.history.spent <= s.history.starts.Keys
    && (forall r <- s.history.exchanges :: AnswersStart(s.history, s.history.exchanges[r]))
    && (forall q, r | q in s.history.exchanges && r in s.history.exchanges ::
          s.history.exchanges[q].state == s.history.exchanges[r].state ==> q == r)
  }

  lemma CallbackKeepsInv(s: State, r: RequestId, state: string, code: string)
    requires Inv(s) && Enabled(s, Callback(r, state, code))
    ensures Inv(CallbackStep(s, r, state, code))
  {
    var s' := CallbackStep(s, r, state, code);
    if Consumable(s, state, code) {
      assert RowOk(s, state);
      forall other <- s'.rows ensures RowOk(s', other) { assert RowOk(s, other); }
      forall q <- s'.history.exchanges ensures AnswersStart(s'.history, s'.history.exchanges[q]) {
        assert q == r || AnswersStart(s.history, s.history.exchanges[q]);
      }
    }
  }

  lemma StepKeepsInv(s: State, a: Action)
    requires Inv(s) && Enabled(s, a)
    ensures Inv(Step(s, a))
  {
    if a.Callback? {
      CallbackKeepsInv(s, a.req, a.state, a.code);
    } else {
      var s' := Step(s, a);
      forall state <- s'.rows ensures RowOk(s', state) { assert state in s.rows ==> RowOk(s, state); }
      forall q <- s'.history.exchanges ensures AnswersStart(s'.history, s'.history.exchanges[q]) {
        assert AnswersStart(s.history, s.history.exchanges[q]);
      }
    }
  }

  lemma {:induction false} ReachableInv(s: State, run: seq<Action>)
    requires Inv(s) && Runs(s, run)
    ensures Inv(Exec(s, run))
    decreases |run|
  {
    if run != [] {
      StepKeepsInv(s, run[0]);
      hide Inv;
      ReachableInv(Step(s, run[0]), run[1..]);
    }
  }

  // ----- What the flow guarantees -----

  // Under every interleaving, the completions that reach a provider correspond one to one to earlier
  // starts with the same provider, nonce, code verifier and redirect target, inside ten minutes.
  lemma CompletionsAnswerStarts(now: Time, configured: set<string>, run: seq<Action>, q: RequestId, r: RequestId)
    requires Runs(Init(now, configured), run)
    ensures var h := Exec(Init(now, configured), run).history;
            && (q in h.exchanges ==> AnswersStart(h, h.exchanges[q]))
            && (q in h.exchanges && r in h.exchanges && h.exchanges[q].state == h.exchanges[r].state ==> q == r)
  {
    ReachableInv(Init(now, configured), run);
  }

  lemma SpentStaysSpent(s: State, a: Action, state: string)
    requires Inv(s) && Enabled(s, a) && state in s.history.spent
    ensures state in Step(s, a).history.spent
  {
  }

  lemma {:induction false} SpentForever(s: State, run: seq<Action>, state: string)
    requires Inv(s) && Runs(s, run) && state in s.history.spent
    ensures state in Exec(s, run).history.spent && state !in Exec(s, run).rows
    decreases |run|
  {
    if run == [] {
      assert state in s.rows ==> RowOk(s, state);
    } else {
      StepKeepsInv(s, run[0]);
      SpentStaysSpent(s, run[0], state);
      hide Inv, Step, Enabled;
      SpentForever(Step(s, run[0]), run[1..], state);
    }
  }

  // Once a callback has read a state, no later callback with it gets through, whether the exchange
  // succeeded, failed, was lost, or was never tried because the provider is no longer configured.
  lemma StateIsSingleUse(s: State, r: RequestId, state: string, code: string, run: seq<Action>, again: string)
    requires Inv(s) && Enabled(s, Callback(r, state, code)) && Consumable(s, state, code)
    requires Runs(Step(s, Callback(r, state, code)), run)
    ensures !Consumable(Exec(Step(s, Callback(r, state, code)), run), state, again)
  {
    StepKeepsInv(s, Callback(r, state, code));
    SpentForever(Step(s, Callback(r, state, code)), run, state);
    hide Inv;
  }

  // ----- Sweeping changes no answer -----

  ghost predicate Sim(swept: State, full: State) {
    && swept == full.(rows := swept.rows)
    && (forall x <- swept.rows :: x in full.rows && swept.rows[x] == full.rows[x])
    && (forall x <- full.rows :: x in swept.rows || full.rows[x].expiresAt <= full.now)
  }

  lemma StepKeepsSim(swept: State, full: State, a: Action)
    requires Sim(swept, full) && Enabled(swept, a) && !a.Sweep?
    ensures Enabled(full, a) && Sim(Step(swept, a), Step(full, a))
  {
  }

  function WithoutSweeps(run: seq<Action>): seq<Action> {
    if run == [] then [] else (if run[0].Sweep? then [] else [run[0]]) + WithoutSweeps(run[1..])
  }

  // What CompleteProviderSignIn finds along a run: the ticket it consumes, or nothing.
  ghost function Answers(s: State, run: seq<Action>): seq<Option<Ticket>>
    requires Runs(s, run)
    decreases |run|
  {
    if run == [] then []
    else
      var here :=
        if run[0].Callback? then
          [if Consumable(s, run[0].state, run[0].code) then Some(s.rows[run[0].state].ticket) else None]
        else [];
      here + Answers(Step(s, run[0]), run[1..])
  }

  lemma {:induction false} SweepSimulation(swept: State, full: State, run: seq<Action>)
    requires Sim(swept, full) && Runs(swept, run)
    ensures Runs(full, WithoutSweeps(run))
    ensures Answers(swept, run) == Answers(full, WithoutSweeps(run))
    ensures Sim(Exec(swept, run), Exec(full, WithoutSweeps(run)))
    decreases |run|
  {
    if run != [] {
      var a, rest := run[0], WithoutSweeps(run[1..]);
      if a.Sweep? {
        SweepSimulation(Step(swept, a), full, run[1..]);
        assert WithoutSweeps(run) == rest;
      } else {
        StepKeepsSim(swept, full, a);
        assert a.Callback? ==> (Consumable(swept, a.state, a.code) <==> Consumable(full, a.state, a.code));
        hide Step, Enabled;
        SweepSimulation(Step(swept, a), Step(full, a), run[1..]);
        assert WithoutSweeps(run) == [a] + rest && (([a] + rest)[1..] == rest);
      }
    }
  }

  // DeleteExpiredOAuthStates anywhere in a run changes no answer of CompleteProviderSignIn.
  lemma StateSweepIsInvisible(s: State, run: seq<Action>)
    requires Runs(s, run)
    ensures Runs(s, WithoutSweeps(run))
    ensures Answers(s, run) == Answers(s, WithoutSweeps(run))
    ensures Exec(s, run) == Exec(s, WithoutSweeps(run)).(rows := Exec(s, run).rows)
  {
    SweepSimulation(s, s, run);
  }

  // ----- What a callback does, case by case -----

  // A callback with a state and a code reads a stored state that has not expired, and with it the state is
  // gone; the exchange is tried, with what the start recorded, exactly when the provider is configured.
  // Any other callback does nothing.
  lemma CallbackDecides(s: State, r: RequestId, state: string, code: string)
    requires Enabled(s, Callback(r, state, code))
    ensures var s' := Step(s, Callback(r, state, code));
            var consumed := state != "" && code != "" && state in s.rows && s.now < s.rows[state].expiresAt;
            && (!consumed ==> s' == s)
            && (consumed ==>
                  && s'.rows == s.rows - {state} && state in s'.history.spent
                  && (r in s'.flight <==> s.rows[state].ticket.provider in s.configured)
                  && (r in s'.flight ==> s'.history.exchanges[r] == Exchange(state, s.rows[state].ticket, s.now))
                  && (r !in s'.flight ==> s'.history.exchanges == s.history.exchanges))
  {
  }

  // A state lives for ten minutes from its start: within them a callback reads it, and after them it is
  // refused and swept.
  lemma StateLivesTenMinutes(s: State, state: string, ticket: Ticket, at: Time, later: Time, r: RequestId, code: string)
    requires Enabled(s, Start(state, ticket, at)) && s.now <= later && code != ""
    requires r !in s.flight && r !in s.history.exchanges
    ensures var s1 := Step(s, Start(state, ticket, at)); var s2 := Step(s1, Tick(later));
            && s1.rows.Keys == s.rows.Keys + {state} && s1.rows[state].ticket == ticket
            && (state !in Step(s2, Callback(r, state, code)).rows <==> later < at + 600)
            && (state in Step(s2, Sweep).rows <==> later < at + 600)
  {
  }
}
