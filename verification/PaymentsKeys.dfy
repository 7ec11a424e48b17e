/**
 Idempotency keys over runs: exactly how long a repeated creation is answered with the
 first payment, and what it does afterwards.
 */
module PaymentsKeys {
  import opened Common
  import opened Ledger
  import opened Sums
  import opened PaymentsModel
  import opened PaymentsVolume

  /** The ledger sequence never goes back, from `from` through the run to `to`. */
  ghost predicate Advancing(from: nat, run: Run, to: nat)
    decreases |run|
  {
    if run == [] then from <= to else from <= run[0].0.sequence && Advancing(run[0].0.sequence, run[1..], to)
  }

  /** The key stands for payment `id` until its time is up, and for a later one after that. */
  predicate KeyStands(s: State, key: nat, id: nat, until: nat, now: nat) {
    && key in s.keys && s.keys[key].id < s.counter && id < s.counter
    && (s.keys[key] == Key(id, until) || (now > until && s.keys[key].id > id))
  }

  predicate SameKeys(s: State, u: State) {
    u.keys == s.keys && u.counter >= s.counter
  }

  lemma CreateKeys(s: State, e: Env, c: Call)
    requires c.CreateCall? && Step(s, e, c).Some?
    ensures var u := Step(s, e, c).value;
            SameKeys(s, u)
            || (c.key.Some? && !KeyLive(s.keys, c.key.value, e.sequence) && u.counter == s.counter + 1
                && u.keys == s.keys[c.key.value := Key(s.counter, e.sequence + KEY_LIFETIME)])
  {
  }

  lemma BatchKeys(s: State, e: Env, c: Call)
    requires c.CreateBatchCall? && Step(s, e, c).Some?
    ensures SameKeys(s, Step(s, e, c).value)
  {
  }

  lemma MultiTokenKeys(s: State, e: Env, c: Call)
    requires c.CreateMultiTokenCall? && Step(s, e, c).Some?
    ensures SameKeys(s, Step(s, e, c).value)
  {
  }

  lemma CompleteKeys(s: State, e: Env, c: Call)
    requires Completes(c) && Step(s, e, c).Some?
    ensures SameKeys(s, Step(s, e, c).value)
  {
    var p := s.payments[c.id];
    CompleteSameKeys(s, e, c.id, p, Share(p.amount, FeeRate(s, e, p)));
  }

  lemma CompleteSameKeys(s: State, e: Env, id: nat, p: Payment, fee: int)
    requires Complete(s, e, id, p, fee).Some?
    ensures SameKeys(s, Complete(s, e, id, p, fee).value)
  {
  }

  lemma OtherKeys(s: State, e: Env, c: Call)
    requires !Creates(c) && !Completes(c) && Step(s, e, c).Some?
    ensures SameKeys(s, Step(s, e, c).value)
  {
  }

  lemma StepKeepsKey(s: State, e: Env, c: Call, key: nat, id: nat, until: nat, now: nat)
    requires KeyStands(s, key, id, until, now) && now <= e.sequence
    ensures KeyStands(Next(s, e, c), key, id, until, e.sequence)
  {
    if Step(s, e, c).Some? {
      if c.CreateCall? {
        CreateKeys(s, e, c);
      } else if c.CreateBatchCall? {
        BatchKeys(s, e, c);
      } else if c.CreateMultiTokenCall? {
        MultiTokenKeys(s, e, c);
      } else if Completes(c) {
        CompleteKeys(s, e, c);
      } else {
        OtherKeys(s, e, c);
      }
    }
  }

  lemma {:induction false} RunKeepsKey(s: State, run: Run, key: nat, id: nat, until: nat, now: nat, to: nat)
    requires KeyStands(s, key, id, until, now) && Advancing(now, run, to)
    ensures KeyStands(Exec(s, run), key, id, until, to)
    decreases |run|
  {
    if run != [] {
      var e := run[0].0;
      StepKeepsKey(s, e, run[0].1, key, id, until, now);
      RunKeepsKey(Next(s, e, run[0].1), run[1..], key, id, until, e.sequence, to);
    }
  }

  /** A creation repeated under its key, whatever happened in between and whatever else it
      asks for, returns the first payment and changes nothing if and only if the key's
      17,280 ledgers are not over. */
  lemma RetryWithinLifetime(s: State, e: Env, who: Address, r: Request, splits: Splits, after: nat, key: nat, run: Run,
                            e': Env, who': Address, r': Request, splits': Splits, after': nat, first: State, id: nat,
                            u: State)
    requires !KeyLive(s.keys, key, e.sequence) && Create(s, e, who, r, splits, after, Some(key)) == Some((first, id))
    requires Advancing(e.sequence, run, e'.sequence) && u == Exec(first, run) && !u.policy.paused && e'.Authorised(who')
    ensures Create(u, e', who', r', splits', after', Some(key)) == Some((u, id))
            <==> e'.sequence <= e.sequence + KEY_LIFETIME
  {
    RunKeepsKey(first, run, key, id, e.sequence + KEY_LIFETIME, e.sequence, e'.sequence);
    if !KeyLive(u.keys, key, e'.sequence) {
      LapsedPaysAgain(u, e', who', r', splits', after', key);
    }
  }

  /** With a lapsed key, or a new one, the creation takes the amount again and makes a new
      payment. */
  lemma LapsedPaysAgain(s: State, e: Env, who: Address, r: Request, splits: Splits, after: nat, key: nat)
    requires !KeyLive(s.keys, key, e.sequence)
    ensures var v := Create(s, e, who, r, splits, after, Some(key));
            v.Some? ==>
              && v.value.1 == s.counter && v.value.0.counter == s.counter + 1 && s.counter in v.value.0.payments
              && v.value.0.payments[s.counter].amount == r.amount > 0
              && v.value.0.payments[s.counter].customer == who
              && Moved(s.bal, v.value.0.bal, r.token, who, This, r.amount)
  {
  }
}
