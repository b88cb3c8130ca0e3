/** The token pool that concurrent child agents draw on, one reservation at a time. */
module TokenPool {
  import opened Text
  import opened TokenUsage

  // ---- the protocol, one atomic step at a time ----

  /** Where one caller of reserve, and of settle after it, has got to. */
  datatype Client =
    | Waiting                            // at the gate
    | Inside                             // past the gate, nothing claimed
    | Leaving                            // refused, the gate still to be freed
    | Refused                            // gave up at the gate
    | Left                               // refused, the gate freed
    | Holding(claim: int)                // a live reservation
    | Returning(claim: int, spent: int)  // the rest is back in the pool, the gate still to be freed
    | Settled(claim: int, spent: int)    // the gate freed

  datatype Pool = Pool(gateTaken: bool, remaining: int, clients: seq<Client>)

  /** A step of one caller. `Settle` may be repeated, by anyone holding the reservation. */
  datatype Action =
    | Enter(who: nat)
    | GiveUp(who: nat)
    | Cancel(who: nat)
    | Claim(who: nat, maxTokens: int)
    | Leave(who: nat)
    | Settle(who: nat, usage: Usage)
    | Free(who: nat)

  /** The tokens a child may use: all that remain, or its own smaller budget. */
  function ClaimOf(remaining: int, maxTokens: int): int {
    if 0 < maxTokens < remaining then maxTokens else remaining
  }

  function SpentOf(claim: int, usage: Usage): int {
    Min(claim, Add(ZERO, usage).totalTokens)
  }

  function Become(p: Pool, who: nat, c: Client): Pool
    requires who < |p.clients|
  {
    p.(clients := p.clients[who := c])
  }

  /** One step; a step that is not enabled changes nothing. */
  function Next(p: Pool, a: Action): Pool {
    if a.who >= |p.clients| then p
    else
      match (a, p.clients[a.who])
      case (Enter(i), Waiting) => if p.gateTaken then p else Become(p, i, Inside).(gateTaken := true)
      case (GiveUp(i), Waiting) => Become(p, i, Refused)
      case (Cancel(i), Inside) => Become(p, i, Leaving)
      case (Claim(i, maxTokens), Inside) =>
        if p.remaining <= 0 then Become(p, i, Leaving)
        else
          var claim := ClaimOf(p.remaining, maxTokens);
          Become(p, i, Holding(claim)).(remaining := p.remaining - claim)
      case (Leave(i), Leaving) => Become(p, i, Left).(gateTaken := false)
      case (Settle(i, usage), Holding(claim)) =>
        var spent := SpentOf(claim, usage);
        Become(p, i, Returning(claim, spent)).(remaining := p.remaining + (claim - spent))
      case (Free(i), Returning(claim, spent)) => Become(p, i, Settled(claim, spent)).(gateTaken := false)
      case _ => p
  }

  function Start(tokens: int, clients: nat): Pool {
    Pool(false, Max(0, tokens), seq(clients, i => Waiting))
  }

  function Run(p: Pool, actions: seq<Action>): Pool {
    if actions == [] then p else Next(Run(p, actions[..|actions| - 1]), actions[|actions| - 1])
  }

  // ---- sums over the clients ----

  function Claimed(c: Client): int { if c.Holding? then c.claim else 0 }
  function Spent(c: Client): int { if c.Returning? || c.Settled? then c.spent else 0 }
  function Past(c: Client): int { if c.Inside? || c.Leaving? || c.Holding? || c.Returning? then 1 else 0 }

  function Sum(f: Client -> int, clients: seq<Client>): int {
    if clients == [] then 0 else Sum(f, clients[..|clients| - 1]) + f(clients[|clients| - 1])
  }

  lemma {:induction false} SumUpdate(f: Client -> int, clients: seq<Client>, i: nat, c: Client)
    requires i < |clients|
    ensures Sum(f, clients[i := c]) == Sum(f, clients) - f(clients[i]) + f(c)
  {
    var n := |clients| - 1;
    if i == n {
      assert clients[i := c][..n] == clients[..n];
    } else {
      assert clients[i := c][..n] == clients[..n][i := c];
      SumUpdate(f, clients[..n], i, c);
    }
  }

  lemma {:induction false} SumOfNothing(f: Client -> int, clients: seq<Client>)
    requires forall c :: c in clients ==> f(c) == 0
    ensures Sum(f, clients) == 0
  {
    if clients != [] {
      SumOfNothing(f, clients[..|clients| - 1]);
    }
  }

  lemma {:induction false} SumAtLeast(f: Client -> int, clients: seq<Client>, i: nat, j: nat)
    requires i < j < |clients| && forall c :: f(c) >= 0
    ensures Sum(f, clients) >= f(clients[i]) + f(clients[j])
  {
    var n := |clients| - 1;
    if j < n {
      SumAtLeast(f, clients[..n], i, j);
    } else {
      SumHolds(f, clients[..n], i);
    }
  }

  lemma {:induction false} SumHolds(f: Client -> int, clients: seq<Client>, i: nat)
    requires i < |clients| && forall c :: f(c) >= 0
    ensures Sum(f, clients) >= f(clients[i])
  {
    var n := |clients| - 1;
    if i < n {
      SumHolds(f, clients[..n], i);
    } else {
      SumNatural(f, clients[..n]);
    }
  }

  lemma {:induction false} SumNatural(f: Client -> int, clients: seq<Client>)
    requires forall c :: f(c) >= 0
    ensures Sum(f, clients) >= 0
  {
    if clients != [] {
      SumNatural(f, clients[..|clients| - 1]);
    }
  }

  // ---- conservation ----

  predicate Sane(c: Client) {
    match c
    case Holding(claim) => 0 < claim
    case Returning(claim, spent) => 0 <= spent <= claim
    case Settled(claim, spent) => 0 <= spent <= claim
    case _ => true
  }

  /** What remains, the live claim and the spends make up the pool, and whoever is past the
      gate is the one the gate is taken by. */
  ghost predicate Conserved(p: Pool, total: int) {
    && 0 <= p.remaining
    && p.remaining + Sum(Claimed, p.clients) + Sum(Spent, p.clients) == total
    && Sum(Past, p.clients) == (if p.gateTaken then 1 else 0)
    && forall i :: 0 <= i < |p.clients| ==> Sane(p.clients[i])
  }

  lemma StartConserved(tokens: int, clients: nat)
    ensures Conserved(Start(tokens, clients), Max(0, tokens))
  {
    var p := Start(tokens, clients);
    SumOfNothing(Claimed, p.clients);
    SumOfNothing(Spent, p.clients);
    SumOfNothing(Past, p.clients);
  }

  lemma SpentClipped(claim: int, usage: Usage)
    requires 0 < claim
    ensures 0 <= SpentOf(claim, usage) <= claim
  {
  }

  lemma HolderTakesGate(p: Pool, total: int, i: nat)
    requires Conserved(p, total) && i < |p.clients|
    ensures Past(p.clients[i]) == 1 ==> p.gateTaken
  {
    SumHolds(Past, p.clients, i);
  }

  /** What a step does to the caller who takes it, to the pool and to the gate. */
  lemma StepBalances(p: Pool, a: Action)
    requires a.who < |p.clients| && Sane(p.clients[a.who]) && 0 <= p.remaining
    requires Past(p.clients[a.who]) == 1 ==> p.gateTaken
    ensures var q := Next(p, a);
            && |q.clients| == |p.clients| && q.clients == p.clients[a.who := q.clients[a.who]]
            && var was, now := p.clients[a.who], q.clients[a.who];
            && Sane(now) && 0 <= q.remaining
            && q.remaining + Claimed(now) + Spent(now) == p.remaining + Claimed(was) + Spent(was)
            && Past(now) - Past(was) == (if q.gateTaken then 1 else 0) - (if p.gateTaken then 1 else 0)
  {
    hide SpentOf;
    if a.Settle? && p.clients[a.who].Holding? {
      SpentClipped(p.clients[a.who].claim, a.usage);
    }
  }

  lemma NextConserves(p: Pool, a: Action, total: int)
    requires Conserved(p, total)
    ensures Conserved(Next(p, a), total)
  {
    hide Next, Claimed, Spent, Past, Sum, Sane;
    if a.who < |p.clients| {
      HolderTakesGate(p, total, a.who);
      StepBalances(p, a);
      SumsMove(p.clients, a.who, Next(p, a).clients[a.who]);
    } else {
      NobodySteps(p, a);
    }
  }

  lemma NobodySteps(p: Pool, a: Action)
    requires a.who >= |p.clients|
    ensures Next(p, a) == p
  {
  }

  lemma SumsMove(clients: seq<Client>, i: nat, c: Client)
    requires i < |clients|
    ensures Sum(Claimed, clients[i := c]) == Sum(Claimed, clients) - Claimed(clients[i]) + Claimed(c)
    ensures Sum(Spent, clients[i := c]) == Sum(Spent, clients) - Spent(clients[i]) + Spent(c)
    ensures Sum(Past, clients[i := c]) == Sum(Past, clients) - Past(clients[i]) + Past(c)
  {
    hide Sum, Claimed, Spent, Past;
    SumUpdate(Claimed, clients, i, c);
    SumUpdate(Spent, clients, i, c);
    SumUpdate(Past, clients, i, c);
  }

  /** Under every interleaving of reserving and settling the tokens are conserved. */
  lemma {:induction false} RunConserves(tokens: int, clients: nat, actions: seq<Action>)
    ensures Conserved(Run(Start(tokens, clients), actions), Max(0, tokens))
  {
    if actions == [] {
      StartConserved(tokens, clients);
    } else {
      RunConserves(tokens, clients, actions[..|actions| - 1]);
      NextConserves(Run(Start(tokens, clients), actions[..|actions| - 1]), actions[|actions| - 1], Max(0, tokens));
    }
  }

  /** At most one caller is past the gate, so at most one reservation is live, and the claims
      of one moment never exceed the pool. */
  lemma OneAtATime(tokens: int, clients: nat, actions: seq<Action>, i: nat, j: nat)
    requires i < j < clients
    ensures var p := Run(Start(tokens, clients), actions);
            && |p.clients| == clients
            && Past(p.clients[i]) + Past(p.clients[j]) <= 1
            && 0 <= Claimed(p.clients[i]) + Claimed(p.clients[j]) <= Max(0, tokens)
  {
    var p := Run(Start(tokens, clients), actions);
    RunKeepsClients(Start(tokens, clients), actions);
    RunConserves(tokens, clients, actions);
    SumAtLeast(Past, p.clients, i, j);
    assert Sane(p.clients[i]) && Sane(p.clients[j]);
    LiveClaims(p.clients, i);
    LiveClaims(p.clients, j);
    SpendsNatural(p.clients);
  }

  lemma {:induction false} LiveClaims(clients: seq<Client>, i: nat)
    requires i < |clients| && forall k :: 0 <= k < |clients| ==> Sane(clients[k])
    ensures Sum(Claimed, clients) >= Claimed(clients[i]) >= 0
  {
    var n := |clients| - 1;
    if i < n {
      LiveClaims(clients[..n], i);
      assert Sane(clients[n]);
    } else {
      assert Sane(clients[i]);
      ClaimsNatural(clients[..n]);
    }
  }

  lemma {:induction false} ClaimsNatural(clients: seq<Client>)
    requires forall k :: 0 <= k < |clients| ==> Sane(clients[k])
    ensures Sum(Claimed, clients) >= 0
  {
    if clients != [] {
      ClaimsNatural(clients[..|clients| - 1]);
      assert Sane(clients[|clients| - 1]);
    }
  }

  lemma {:induction false} SpendsNatural(clients: seq<Client>)
    requires forall k :: 0 <= k < |clients| ==> Sane(clients[k])
    ensures Sum(Spent, clients) >= 0
  {
    if clients != [] {
      SpendsNatural(clients[..|clients| - 1]);
      assert Sane(clients[|clients| - 1]);
    }
  }

  lemma {:induction false} RunKeepsClients(p: Pool, actions: seq<Action>)
    ensures |Run(p, actions).clients| == |p.clients|
  {
    if actions != [] {
      RunKeepsClients(p, actions[..|actions| - 1]);
    }
  }

  // ---- the gate is freed once ----

  /** The step frees the gate for this caller. */
  predicate Frees(p: Pool, a: Action, who: nat) {
    a.who == who && p.gateTaken && !Next(p, a).gateTaken
  }

  function Freed(p: Pool, actions: seq<Action>, who: nat): nat {
    if actions == [] then 0
    else
      var before := actions[..|actions| - 1];
      Freed(p, before, who) + (if Frees(Run(p, before), actions[|actions| - 1], who) then 1 else 0)
  }

  function Passed(p: Pool, actions: seq<Action>, who: nat): nat {
    if actions == [] then 0
    else
      var before, a := actions[..|actions| - 1], actions[|actions| - 1];
      var q := Run(p, before);
      Passed(p, before, who) + (if a.who == who && !q.gateTaken && Next(q, a).gateTaken then 1 else 0)
  }

  predicate Done(c: Client) { c.Left? || c.Settled? }
  predicate Entered(c: Client) { !c.Waiting? && !c.Refused? }

  /** A caller frees the gate in the step that makes it done, and takes it in the step that lets it in. */
  lemma StepGate(p: Pool, a: Action, who: nat)
    requires who < |p.clients| && (Past(p.clients[who]) == 1 ==> p.gateTaken)
    ensures var q := Next(p, a);
            && |q.clients| == |p.clients|
            && (Frees(p, a, who) <==> Done(q.clients[who]) && !Done(p.clients[who]))
            && (Done(p.clients[who]) ==> Done(q.clients[who]))
            && ((a.who == who && !p.gateTaken && q.gateTaken) <==> Entered(q.clients[who]) && !Entered(p.clients[who]))
            && (Entered(p.clients[who]) ==> Entered(q.clients[who]))
  {
    hide ClaimOf, SpentOf;
  }

  /** Each caller passes the gate at most once, and frees it exactly once when it is done,
      however often settle is repeated. */
  lemma {:induction false} GateFreedOnce(tokens: int, clients: nat, actions: seq<Action>, who: nat)
    requires who < clients
    ensures var p := Run(Start(tokens, clients), actions);
            && |p.clients| == clients
            && Freed(Start(tokens, clients), actions, who) == (if Done(p.clients[who]) then 1 else 0)
            && Passed(Start(tokens, clients), actions, who) == (if Entered(p.clients[who]) then 1 else 0)
  {
    if actions != [] {
      hide Next, Frees, Done, Entered, Conserved;
      var before, a := actions[..|actions| - 1], actions[|actions| - 1];
      GateFreedOnce(tokens, clients, before, who);
      var q := Run(Start(tokens, clients), before);
      RunConserves(tokens, clients, before);
      HolderTakesGate(q, Max(0, tokens), who);
      StepGate(q, a, who);
    }
  }

  /** A settlement is final: repeating it changes nothing. */
  lemma SettleOnce(p: Pool, who: nat, first: Usage, second: Usage)
    ensures Next(Next(p, Settle(who, first)), Settle(who, second)) == Next(p, Settle(who, first))
    ensures Next(Next(Next(p, Settle(who, first)), Free(who)), Settle(who, second)) == Next(Next(p, Settle(who, first)), Free(who))
  {
    hide SpentOf;
  }

  // ---- what a claim and a spend are ----

  /** As much as there is, or as the child's own budget lets it have. */
  predicate Largest(claim: int, remaining: int, maxTokens: int) {
    && 0 < claim <= remaining && (0 < maxTokens ==> claim <= maxTokens)
    && (claim == remaining || claim == maxTokens)
  }

  /** All that was reported, as far as it was claimed. */
  predicate Charged(spent: int, claim: int, usage: Usage) {
    var reported := Normalized(usage).totalTokens;
    if reported <= claim then spent == reported else spent == claim
  }

  /** The step at `k` claimed this much for the caller from what then remained. */
  ghost predicate ClaimedAt(p: Pool, actions: seq<Action>, k: int, who: nat, claim: int)
    requires 0 <= k < |actions|
  {
    && actions[k].Claim? && actions[k].who == who
    && var q := Run(p, actions[..k]);
    && who < |q.clients| && q.clients[who].Inside? && Largest(claim, q.remaining, actions[k].maxTokens)
  }

  ghost predicate SettledAt(p: Pool, actions: seq<Action>, k: int, who: nat, claim: int, spent: int)
    requires 0 <= k < |actions|
  {
    && actions[k].Settle? && actions[k].who == who
    && var q := Run(p, actions[..k]);
    && who < |q.clients| && q.clients[who] == Holding(claim) && Charged(spent, claim, actions[k].usage)
  }

  /** A caller was turned away by an empty pool, or gave up itself. */
  ghost predicate TurnedAwayAt(p: Pool, actions: seq<Action>, k: int, who: nat)
    requires 0 <= k < |actions|
  {
    && actions[k].who == who
    && var q := Run(p, actions[..k]);
    && who < |q.clients| && q.clients[who].Inside? && (actions[k].Cancel? || (actions[k].Claim? && q.remaining <= 0))
  }

  /** What the books say about a caller is what its own steps did. */
  ghost predicate Accounted(p: Pool, actions: seq<Action>, who: nat, c: Client) {
    && (c.Holding? || c.Returning? || c.Settled? ==>
          exists k :: 0 <= k < |actions| && ClaimedAt(p, actions, k, who, c.claim))
    && (c.Returning? || c.Settled? ==>
          exists k :: 0 <= k < |actions| && SettledAt(p, actions, k, who, c.claim, c.spent))
    && (c.Leaving? || c.Left? ==> exists k :: 0 <= k < |actions| && TurnedAwayAt(p, actions, k, who))
  }

  lemma StepAccounts(p: Pool, a: Action, who: nat)
    requires who < |p.clients| && (a.Settle? ==> Fits(a.usage))
    ensures |Next(p, a).clients| == |p.clients|
    ensures var was, now := p.clients[who], Next(p, a).clients[who];
            && (now.Holding? && now != was ==> a.Claim? && a.who == who && was.Inside? && Largest(now.claim, p.remaining, a.maxTokens))
            && (now.Returning? && now != was ==>
                  a.Settle? && a.who == who && was == Holding(now.claim) && Charged(now.spent, now.claim, a.usage))
            && (now.Settled? && now != was ==> was == Returning(now.claim, now.spent))
            && (now.Leaving? && now != was ==> a.who == who && was.Inside? && (a.Cancel? || (a.Claim? && p.remaining <= 0)))
            && (now.Left? && now != was ==> was.Leaving?)
  {
    if a.Settle? {
      ZeroIdentity(a.usage);
    }
    hide Add, Normalized;
  }

  lemma AccountsStay(p: Pool, actions: seq<Action>, who: nat, c: Client, a: Action)
    requires Accounted(p, actions, who, c)
    ensures Accounted(p, actions + [a], who, c)
  {
    hide Run, Largest, Charged;
    var all := actions + [a];
    forall k | 0 <= k < |actions| ensures all[k] == actions[k] && all[..k] == actions[..k] {
    }
    if k :| 0 <= k < |actions| && TurnedAwayAt(p, actions, k, who) {
      assert TurnedAwayAt(p, all, k, who);
    }
    if c.Holding? || c.Returning? || c.Settled? {
      var k :| 0 <= k < |actions| && ClaimedAt(p, actions, k, who, c.claim);
      assert ClaimedAt(p, all, k, who, c.claim);
    }
    if c.Returning? || c.Settled? {
      var k :| 0 <= k < |actions| && SettledAt(p, actions, k, who, c.claim, c.spent);
      assert SettledAt(p, all, k, who, c.claim, c.spent);
    }
  }

  /** Over every run: a claim was the largest allowed when it was made, a spend is what was reported
      as far as claimed, and a caller is turned away only by an empty pool or at its own wish. */
  lemma {:induction false} RunAccounts(tokens: int, clients: nat, actions: seq<Action>, who: nat)
    requires who < clients && forall k :: 0 <= k < |actions| && actions[k].Settle? ==> Fits(actions[k].usage)
    ensures |Run(Start(tokens, clients), actions).clients| == clients
    ensures Accounted(Start(tokens, clients), actions, who, Run(Start(tokens, clients), actions).clients[who])
  {
    var p := Start(tokens, clients);
    RunKeepsClients(p, actions);
    if actions != [] {
      hide Next, Accounted, Largest, Charged;
      var n := |actions| - 1;
      var before, a := actions[..n], actions[n];
      RunAccounts(tokens, clients, before, who);
      StepAccounts(Run(p, before), a, who);
      AccountsStay(p, before, who, Run(p, before).clients[who], a);
      assert actions == before + [a];
      AccountsMove(p, actions, who, Run(p, before).clients[who], Run(p, actions).clients[who]);
    }
  }

  lemma AccountsMove(p: Pool, actions: seq<Action>, who: nat, was: Client, now: Client)
    requires actions != [] && Accounted(p, actions, who, was)
    requires var n, a, q := |actions| - 1, actions[|actions| - 1], Run(p, actions[..|actions| - 1]);
             && who < |q.clients| && q.clients[who] == was
             && (now.Holding? && now != was ==> a.Claim? && a.who == who && was.Inside? && Largest(now.claim, q.remaining, a.maxTokens))
             && (now.Returning? && now != was ==>
                   a.Settle? && a.who == who && was == Holding(now.claim) && Charged(now.spent, now.claim, a.usage))
             && (now.Settled? && now != was ==> was == Returning(now.claim, now.spent))
             && (now.Leaving? && now != was ==> a.who == who && was.Inside? && (a.Cancel? || (a.Claim? && q.remaining <= 0)))
             && (now.Left? && now != was ==> was.Leaving?)
    ensures Accounted(p, actions, who, now)
  {
    hide Run, Largest, Charged;
    var n := |actions| - 1;
    if now != was {
      if now.Holding? {
        assert ClaimedAt(p, actions, n, who, now.claim);
      } else if now.Returning? {
        assert SettledAt(p, actions, n, who, now.claim, now.spent);
      } else if now.Leaving? {
        assert TurnedAwayAt(p, actions, n, who);
      }
    }
  }

  // ---- the tracker ----

  /** Each method is one critical section. */
  class TokenTracker {
    var gateTaken: bool
    var remaining: int

    constructor (tokens: int)
      ensures !gateTaken && remaining == Start(tokens, 0).remaining
    {
      gateTaken, remaining := false, Max(0, tokens);
    }

    ghost predicate Shows(p: Pool)
      reads this
    {
      gateTaken == p.gateTaken && remaining == p.remaining
    }

    method TryEnter(ghost p: Pool, ghost who: nat) returns (entered: bool)
      requires Shows(p) && who < |p.clients| && p.clients[who].Waiting?
      modifies this
      ensures Shows(Next(p, Enter(who))) && entered == Next(p, Enter(who)).clients[who].Inside?
    {
      entered := !gateTaken;
      gateTaken := true;
    }

    /** Takes the claim out of the pool, or nothing when the pool is empty. */
    method TakeClaim(maxTokens: int, ghost p: Pool, ghost who: nat) returns (reservation: Option<Reservation>)
      requires Shows(p) && who < |p.clients| && p.clients[who].Inside?
      modifies this
      ensures Shows(Next(p, Claim(who, maxTokens)))
      ensures reservation.Some? ==>
                && fresh(reservation.value) && reservation.value.tracker == this && !reservation.value.done
                && Next(p, Claim(who, maxTokens)).clients[who] == Holding(reservation.value.claim)
      ensures reservation.None? ==> Next(p, Claim(who, maxTokens)).clients[who].Leaving?
    {
      if remaining <= 0 {
        return None;
      }
      var claim := remaining;
      if maxTokens > 0 && maxTokens < claim {
        claim := maxTokens;
      }
      remaining := remaining - claim;
      var r := new Reservation(this, claim);
      return Some(r);
    }

    method LeaveGate(ghost p: Pool, ghost who: nat)
      requires Shows(p) && who < |p.clients| && p.clients[who].Leaving?
      modifies this
      ensures Shows(Next(p, Leave(who)))
    {
      gateTaken := false;
    }
  }

  class Reservation {
    const tracker: TokenTracker
    const claim: int
    var done: bool

    constructor (t: TokenTracker, c: int)
      ensures tracker == t && claim == c && !done
    {
      tracker, claim, done := t, c, false;
    }

    /** The reservation's flag says how far its holder has got. */
    ghost predicate Shows(p: Pool, who: nat)
      reads this, tracker
    {
      && tracker.Shows(p) && who < |p.clients|
      && (if done then p.clients[who].Settled? else p.clients[who] == Holding(claim))
    }

    /** The first call returns what was not spent and frees the gate; later calls do nothing. */
    method SettleUsage(usage: Usage, ghost p: Pool, ghost who: nat)
      requires Shows(p, who)
      modifies this, tracker
      ensures Shows(Next(Next(p, Settle(who, usage)), Free(who)), who)
      ensures done
    {
      hide Add;
      if done {
        return;
      }
      done := true;
      var spent := Min(claim, Add(ZERO, usage).totalTokens);
      tracker.remaining := tracker.remaining + (claim - spent);
      tracker.gateTaken := false;
    }
  }
}
