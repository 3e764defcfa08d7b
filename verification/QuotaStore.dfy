/** An organization's quota row and the consumers that read it, check it, and later write conditionally
    on both the version and the usage they read. Amounts are exact numbers. */
module QuotaStore {
  import opened Collections

  datatype Quota = Quota(maximum: real, used: real, version: nat)

  /** What a consumer holds between its read and its write. */
  datatype Claim = Claim(amount: real, used: real, version: nat)

  /** A new quota; a negative maximum is refused. */
  function NewQuota(maximum: real): Option<Quota> {
    if maximum < 0.0 then None else Some(Quota(maximum, 0.0, 1))
  }

  /** Reading the row and checking that the amount fits. */
  function ReadFor(q: Quota, amount: real): Option<Claim> {
    if amount < 0.0 || q.used + amount > q.maximum then None else Some(Claim(amount, q.used, q.version))
  }

  /** Writing where version and usage are still those read; otherwise no row is updated. */
  function Written(q: Quota, c: Claim): Option<Quota> {
    if q.version != c.version || q.used != c.used then None
    else Some(q.(used := q.used + c.amount, version := q.version + 1))
  }

  // ---------------------------------------------------------------- interleavings

  /** The row, the consumers that have read and not yet written, and the amounts granted so far. */
  datatype World = World(quota: Quota, pending: map<nat, Claim>, granted: seq<real>)

  datatype Action = Read(client: nat, amount: real) | Write(writer: nat)

  function Step(w: World, a: Action): World {
    match a
    case Read(client, amount) =>
      var c := ReadFor(w.quota, amount);
      if c.Some? then w.(pending := w.pending[client := c.value]) else w.(pending := w.pending - {client})
    case Write(client) =>
      if client !in w.pending then w
      else
        var c := w.pending[client];
        var q := Written(w.quota, c);
        if q.Some? then World(q.value, w.pending - {client}, w.granted + [c.amount])
        else w.(pending := w.pending - {client})
  }

  function Run(w: World, actions: seq<Action>): World
    decreases |actions|
  {
    if actions == [] then w else Run(Step(w, actions[0]), actions[1..])
  }

  function Fresh(q: Quota): World {
    World(q, map[], [])
  }

  // ---------------------------------------------------------------- the row, updated in place

  class QuotaRow {
    const maximum: real
    var used: real
    var version: nat

    ghost function Contents(): Quota
      reads this
    {
      Quota(maximum, used, version)
    }

    constructor (limit: real)
      requires limit >= 0.0
      ensures NewQuota(limit) == Some(Contents())
    {
      maximum, used, version := limit, 0.0, 1;
    }

    method ReadQuota(amount: real) returns (c: Option<Claim>)
      ensures c == ReadFor(Contents(), amount)
    {
      if amount < 0.0 { return None; }
      if used + amount > maximum { return None; }
      c := Some(Claim(amount, used, version));
    }

    method WriteQuota(c: Claim) returns (ok: bool)
      modifies this
      ensures ok == Written(old(Contents()), c).Some?
      ensures Contents() == if ok then Written(old(Contents()), c).value else old(Contents())
    {
      ok := version == c.version && used == c.used;
      if ok {
        used := used + c.amount;
        version := version + 1;
      }
    }

    /** One consumer alone: its whole transaction succeeds exactly when the amount is not negative and
        still fits, and then uses up exactly that amount. */
    method Consume(amount: real) returns (ok: bool)
      modifies this
      ensures ok <==> 0.0 <= amount && old(used) + amount <= maximum
      ensures used == if ok then old(used) + amount else old(used)
      ensures version == if ok then old(version) + 1 else old(version)
    {
      var c := ReadQuota(amount);
      if c.None? { return false; }
      ok := WriteQuota(c.value);
    }
  }

  // ---------------------------------------------------------------- what every interleaving keeps

  function Sum(xs: seq<real>): real {
    if xs == [] then 0.0 else Sum(xs[..|xs| - 1]) + xs[|xs| - 1]
  }

  ghost predicate Sound(w: World) {
    && 0.0 <= w.quota.used <= w.quota.maximum
    && w.quota.used == Sum(w.granted)
    && w.quota.version == 1 + |w.granted|
    && (forall k :: 0 <= k < |w.granted| ==> w.granted[k] >= 0.0)
    && (forall client :: client in w.pending ==>
          var c := w.pending[client];
          && 1 <= c.version <= w.quota.version
          && c.amount >= 0.0 && c.used + c.amount <= w.quota.maximum
          && (c.version == w.quota.version ==> c.used == w.quota.used))
  }

  lemma StepIsSound(w: World, a: Action)
    requires Sound(w)
    ensures Sound(Step(w, a)) && Step(w, a).quota.maximum == w.quota.maximum
    ensures w.granted <= Step(w, a).granted
  {
    if a.Write? && a.writer in w.pending {
      var c := w.pending[a.writer];
      assert (w.granted + [c.amount])[..|w.granted|] == w.granted;
    }
  }

  lemma {:induction false} EveryRunIsSound(w: World, actions: seq<Action>)
    requires Sound(w)
    ensures Sound(Run(w, actions)) && Run(w, actions).quota.maximum == w.quota.maximum
    ensures w.granted <= Run(w, actions).granted
    decreases |actions|
  {
    hide Sound, Step;
    if actions == [] {
    } else {
      StepIsSound(w, actions[0]);
      EveryRunIsSound(Step(w, actions[0]), actions[1..]);
    }
  }

  /** Under any interleaving of consumers: usage stays between zero and the maximum, it is exactly the sum
      of the amounts whose transaction succeeded, and the version is one more than their number. */
  lemma QuotaIsConserved(q: Quota, maximum: real, actions: seq<Action>)
    requires NewQuota(maximum) == Some(q)
    ensures var w := Run(Fresh(q), actions);
      && w.quota.maximum == maximum
      && 0.0 <= w.quota.used <= maximum
      && w.quota.used == Sum(w.granted)
      && w.quota.version == 1 + |w.granted|
  {
    hide Run;
    assert Sound(Fresh(q));
    EveryRunIsSound(Fresh(q), actions);
  }

  ghost predicate Avoids(actions: seq<Action>, client: nat) {
    forall a :: a in actions ==> (a.Read? ==> a.client != client) && (a.Write? ==> a.writer != client)
  }

  lemma {:induction false} ClaimIsKept(w: World, actions: seq<Action>, client: nat)
    requires Avoids(actions, client)
    ensures client in Run(w, actions).pending <==> client in w.pending
    ensures client in w.pending ==> Run(w, actions).pending[client] == w.pending[client]
    decreases |actions|
  {
    if actions == [] {
    } else {
      assert actions[0] in actions;
      ClaimIsKept(Step(w, actions[0]), actions[1..], client);
    }
  }

  /** A consumer gets its amount exactly when the amount is not negative, fitted when it was read, and nobody was
      granted anything since; then usage grows by that amount, and otherwise the row stays as it is. */
  lemma GrantedIffUndisturbed(w: World, client: nat, amount: real, between: seq<Action>)
    requires Sound(w) && Avoids(between, client)
    ensures var now := Run(Step(w, Read(client, amount)), between);
      var after := Step(now, Write(client));
      if 0.0 <= amount && w.quota.used + amount <= w.quota.maximum && |now.granted| == |w.granted| then
        && after.granted == w.granted + [amount]
        && after.quota == Quota(w.quota.maximum, w.quota.used + amount, w.quota.version + 1)
      else after.granted == now.granted && after.quota == now.quota
  {
    hide Run;
    var read := Step(w, Read(client, amount));
    StepIsSound(w, Read(client, amount));
    EveryRunIsSound(read, between);
    ClaimIsKept(read, between, client);
  }
}
