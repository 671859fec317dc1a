/** Stagnation: which obligation has been failing longest without a break. */
module OptionalCapabilities {
  import opened Prelude
  import opened JsText
  import opened OrderedMap

  datatype Verification = Verification(obligationId: Text, failed: bool)

  datatype Stagnation =
    | CapabilityDisabled(failedAttempts: nat)
    | BelowThreshold(failedAttempts: nat)
    | NoFailingObligation(failedAttempts: nat)
    | Stagnant(repeatedObligation: Text, failedAttempts: nat)

  function FailedAttempts(attempts: seq<bool>): nat {
    if attempts == [] then 0
    else FailedAttempts(attempts[..|attempts| - 1]) + if attempts[|attempts| - 1] then 1 else 0
  }

  lemma {:induction false} FailuresAreCounted(attempts: seq<bool>)
    ensures FailedAttempts(attempts) == |set k | 0 <= k < |attempts| && attempts[k]|
  {
    if attempts != [] {
      var n := |attempts| - 1;
      FailuresAreCounted(attempts[..n]);
      var before := set k | 0 <= k < n && attempts[..n][k];
      var all := set k | 0 <= k < |attempts| && attempts[k];
      assert all == if attempts[n] then before + {n} else before;
    }
  }

  // A threshold of zero is no threshold: it falls back to three.
  predicate CapabilityActive(requested: bool, failedAttempts: nat, threshold: int) {
    requested || failedAttempts >= if threshold == 0 then 3 else threshold
  }

  // The map after the verifications: a failure keeps or takes a place, anything else gives it up.
  function Failing(verifications: seq<Verification>): Entries<Text, Verification> {
    if verifications == [] then []
    else
      var before, v := Failing(verifications[..|verifications| - 1]), verifications[|verifications| - 1];
      if v.failed then Set(before, v.obligationId, v) else Delete(before, v.obligationId)
  }

  method DetectOptionalStagnation(requested: bool, attempts: seq<bool>, verifications: seq<Verification>, threshold: int)
    returns (r: Stagnation)
    ensures r.failedAttempts == FailedAttempts(attempts) == |set k | 0 <= k < |attempts| && attempts[k]|
    ensures r.CapabilityDisabled? <==> !CapabilityActive(requested, FailedAttempts(attempts), threshold)
    ensures r.BelowThreshold? <==>
              CapabilityActive(requested, FailedAttempts(attempts), threshold) && FailedAttempts(attempts) < threshold
    ensures r.Stagnant? <==>
              && CapabilityActive(requested, FailedAttempts(attempts), threshold) && FailedAttempts(attempts) >= threshold
              && Failing(verifications) != []
    ensures r.Stagnant? ==> r.repeatedObligation == Failing(verifications)[0].0
  {
    FailuresAreCounted(attempts);
    var failedAttempts := FailedAttempts(attempts);
    if !CapabilityActive(requested, failedAttempts, threshold) { return CapabilityDisabled(failedAttempts); }
    if failedAttempts < threshold { return BelowThreshold(failedAttempts); }
    var failingByObligation: Entries<Text, Verification> := [];
    for i := 0 to |verifications|
      invariant failingByObligation == Failing(verifications[..i])
    {
      var verification := verifications[i];
      assert verifications[..i + 1][..i] == verifications[..i];
      if verification.failed {
        failingByObligation := Set(failingByObligation, verification.obligationId, verification);
      } else {
        failingByObligation := Delete(failingByObligation, verification.obligationId);
      }
    }
    assert verifications[..|verifications|] == verifications;
    if |failingByObligation| == 0 { return NoFailingObligation(failedAttempts); }
    return Stagnant(failingByObligation[0].0, failedAttempts);
  }

  // ---- Streaks ----

  // The obligation's current streak: it began here, after anything but a failure,
  // and every verification of the obligation since has failed.
  ghost predicate StreakBegan(verifications: seq<Verification>, id: Text, at: nat) {
    && at < |verifications| && verifications[at] == Verification(id, true)
    && (forall k :: at <= k < |verifications| && verifications[k].obligationId == id ==> verifications[k].failed)
    && (forall k :: 0 <= k < at && verifications[k] == Verification(id, true) ==>
          exists m :: k < m < at && verifications[m] == Verification(id, false))
  }

  ghost function StreakStart(verifications: seq<Verification>, id: Text): Option<nat> {
    if verifications == [] then None
    else
      var last := |verifications| - 1;
      var before := StreakStart(verifications[..last], id);
      if verifications[last].obligationId != id then before
      else if !verifications[last].failed then None
      else if before.Some? then before else Some(last)
  }

  lemma {:induction false} StreakStartIsWhereItBegan(verifications: seq<Verification>, id: Text)
    ensures match StreakStart(verifications, id)
            case Some(at) => StreakBegan(verifications, id, at)
            case None => forall k :: 0 <= k < |verifications| && verifications[k] == Verification(id, true) ==>
                           exists m :: k < m < |verifications| && verifications[m] == Verification(id, false)
  {
    if verifications != [] {
      var last := |verifications| - 1;
      var init := verifications[..last];
      StreakStartIsWhereItBegan(init, id);
      assert forall k :: 0 <= k < last ==> init[k] == verifications[k];
    }
  }

  lemma StreakIsUnique(verifications: seq<Verification>, id: Text, at: nat)
    ensures StreakBegan(verifications, id, at) <==> StreakStart(verifications, id) == Some(at)
  {
    StreakStartIsWhereItBegan(verifications, id);
  }

  ghost function StartOrder(verifications: seq<Verification>, id: Text): int {
    if StreakStart(verifications, id).Some? then StreakStart(verifications, id).value else -1
  }

  ghost predicate Increasing(keys: seq<Text>, order: Text -> int) {
    forall i, j :: 0 <= i < j < |keys| ==> order(keys[i]) < order(keys[j])
  }

  ghost predicate ByStreak(verifications: seq<Verification>, keys: seq<Text>) {
    && (forall id :: id in keys <==> StreakStart(verifications, id).Some?)
    && Increasing(keys, id => StartOrder(verifications, id))
  }

  lemma {:induction false} StartsBefore(verifications: seq<Verification>, id: Text)
    ensures StreakStart(verifications, id).Some? ==> StreakStart(verifications, id).value < |verifications|
  {
    if verifications != [] { StartsBefore(verifications[..|verifications| - 1], id); }
  }

  lemma {:induction false} WithoutKeepsOrder(keys: seq<Text>, id: Text, order: Text -> int)
    requires Increasing(keys, order)
    ensures Increasing(Without(keys, id), order)
  {
    if keys != [] {
      WithoutKeepsOrder(keys[1..], id, order);
      WithoutMembers(keys[1..], id);
      assert keys == [keys[0]] + keys[1..];
      forall k | k in keys[1..] ensures order(keys[0]) < order(k) {
        var i :| 0 <= i < |keys[1..]| && keys[1..][i] == k;
        assert keys[i + 1] == k;
      }
    }
  }

  lemma SameOrder(keys: seq<Text>, before: Text -> int, after: Text -> int)
    requires Increasing(keys, before) && forall k :: k in keys ==> before(k) == after(k)
    ensures Increasing(keys, after)
  {
    forall i, j | 0 <= i < j < |keys| ensures after(keys[i]) < after(keys[j]) {
      assert keys[i] in keys && keys[j] in keys;
    }
  }

  lemma StreakStep(init: seq<Verification>, v: Verification, id: Text)
    ensures StreakStart(init + [v], id)
            == if v.obligationId != id then StreakStart(init, id)
               else if !v.failed then None
               else if StreakStart(init, id).Some? then StreakStart(init, id) else Some(|init|)
  {
    assert (init + [v])[..|init|] == init;
  }

  lemma PassKeepsStreaks(init: seq<Verification>, v: Verification, keys: seq<Text>)
    requires !v.failed && ByStreak(init, keys)
    ensures ByStreak(init + [v], Without(keys, v.obligationId))
  {
    var left := Without(keys, v.obligationId);
    var before, after := (id: Text) => StartOrder(init, id), (id: Text) => StartOrder(init + [v], id);
    WithoutKeepsOrder(keys, v.obligationId, before);
    WithoutMembers(keys, v.obligationId);
    forall id ensures id in left <==> StreakStart(init + [v], id).Some? { StreakStep(init, v, id); }
    forall k | k in left ensures before(k) == after(k) { StreakStep(init, v, k); }
    SameOrder(left, before, after);
  }

  lemma FailureKeepsStreaks(init: seq<Verification>, v: Verification, keys: seq<Text>)
    requires v.failed && ByStreak(init, keys)
    ensures ByStreak(init + [v], if v.obligationId in keys then keys else keys + [v.obligationId])
  {
    var before, after := (id: Text) => StartOrder(init, id), (id: Text) => StartOrder(init + [v], id);
    forall k | k in keys ensures before(k) == after(k) < |init| {
      StreakStep(init, v, k);
      StartsBefore(init, k);
    }
    SameOrder(keys, before, after);
    StreakStep(init, v, v.obligationId);
    forall id ensures StreakStart(init + [v], id).Some? <==> id in keys || id == v.obligationId { StreakStep(init, v, id); }
  }

  // The map lists the failing obligations in the order their streaks began.
  lemma {:induction false} FailingIsByStreak(verifications: seq<Verification>)
    ensures ByStreak(verifications, Keys(Failing(verifications)))
  {
    if verifications != [] {
      var init, v := verifications[..|verifications| - 1], verifications[|verifications| - 1];
      FailingIsByStreak(init);
      assert verifications == init + [v];
      if v.failed {
        SetKeys(Failing(init), v.obligationId, v);
        FailureKeepsStreaks(init, v, Keys(Failing(init)));
      } else {
        DeleteKeys(Failing(init), v.obligationId);
        PassKeepsStreaks(init, v, Keys(Failing(init)));
      }
    }
  }

  // Stagnation holds exactly when the failed attempts reach the threshold in force
  // and some obligation's last verification failed; the one reported is the one
  // whose unbroken failing streak began first.
  lemma StagnationIsOldestOpenStreak(verifications: seq<Verification>)
    ensures Failing(verifications) != []
            <==> exists id, at :: StreakBegan(verifications, id, at)
    ensures Failing(verifications) != [] ==>
              exists at :: && StreakBegan(verifications, Failing(verifications)[0].0, at)
                           && forall id, other :: StreakBegan(verifications, id, other) ==>
                                at < other || (at == other && id == Failing(verifications)[0].0)
  {
    var failing := Failing(verifications);
    var keys := Keys(failing);
    FailingIsByStreak(verifications);
    KeysAt(failing);
    if failing != [] {
      assert keys[0] in keys;
      var at := StreakStart(verifications, keys[0]).value;
      StreakIsUnique(verifications, keys[0], at);
      forall id, other | StreakBegan(verifications, id, other) ensures at < other || (at == other && id == keys[0]) {
        StreakIsUnique(verifications, id, other);
        var k :| 0 <= k < |keys| && keys[k] == id;
      }
    }
    forall id, at | StreakBegan(verifications, id, at) ensures failing != [] {
      StreakIsUnique(verifications, id, at);
      assert id in keys;
    }
  }

  lemma LastFailedMeansStreak(verifications: seq<Verification>, id: Text)
    ensures (exists at :: StreakBegan(verifications, id, at))
            <==> exists k :: && 0 <= k < |verifications| && verifications[k] == Verification(id, true)
                             && forall m :: k < m < |verifications| ==> verifications[m].obligationId != id
  {
    StreakStartIsWhereItBegan(verifications, id);
    if exists at :: StreakBegan(verifications, id, at) {
      var at :| StreakBegan(verifications, id, at);
      LastOf(verifications, id, at);
    }
  }

  lemma {:induction false} LastOf(verifications: seq<Verification>, id: Text, at: nat)
    requires at < |verifications| && verifications[at].obligationId == id
    ensures exists k :: && at <= k < |verifications| && verifications[k].obligationId == id
                        && forall m :: k < m < |verifications| ==> verifications[m].obligationId != id
    decreases |verifications| - at
  {
    if exists m :: at < m < |verifications| && verifications[m].obligationId == id {
      var m :| at < m < |verifications| && verifications[m].obligationId == id;
      LastOf(verifications, id, m);
    } else {
      assert at <= at < |verifications|;
    }
  }

  // For all thresholds at once: the threshold in force is three when it is zero and
  // the capability was not asked for.
  lemma ThresholdInForce(requested: bool, failedAttempts: nat, threshold: int)
    ensures CapabilityActive(requested, failedAttempts, threshold) && failedAttempts >= threshold
            <==> failedAttempts >= if threshold == 0 && !requested then 3 else threshold
  {
  }
}
