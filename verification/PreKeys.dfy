/**
 Signal pre-key bundles and one-time pre-keys, in memory.
 */
module PreKeys {
  import opened JsCollections
  import opened Ids
  type DeviceId = string
  type KeyId = nat

  datatype Bundle = Bundle(userId: UserId, deviceId: DeviceId, identityKey: string, signedPreKeyId: nat, signedPreKey: string)
  datatype UploadedKey = UploadedKey(keyId: KeyId, publicKey: string)
  datatype PreKey = PreKey(publicKey: string, consumed: bool)

  /** Stands for the key string `user:device:keyId`. */
  datatype Slot = Slot(user: UserId, device: DeviceId, keyId: KeyId)

  datatype Taken = Taken(bundle: Bundle, oneTimeKey: Option<UploadedKey>)
  datatype Consumption = Missing | Used | Consumed

  type Bundles = map<(UserId, DeviceId), Bundle>
  type Keys = JsMap<Slot, PreKey>

  predicate Available(keys: Keys, user: UserId, device: DeviceId, slot: Slot) {
    slot in keys.vals && slot.user == user && slot.device == device && !keys.vals[slot].consumed
  }

  function FirstAvailable(keys: Keys, user: UserId, device: DeviceId): Option<Slot> {
    FindFirst(keys.keys, slot => Available(keys, user, device, slot))
  }

  function Spend(keys: Keys, slot: Slot): Keys {
    if slot in keys.vals then keys.Set(slot, keys.vals[slot].(consumed := true)) else keys
  }

  function Stored(keys: Keys, user: UserId, device: DeviceId, uploaded: seq<UploadedKey>): (r: Keys)
    ensures keys.Valid() ==> r.Valid()
  {
    if uploaded == [] then keys
    else
      var k := uploaded[|uploaded| - 1];
      Stored(keys, user, device, uploaded[..|uploaded| - 1]).Set(Slot(user, device, k.keyId), PreKey(k.publicKey, false))
  }

  function Count(keys: Keys, user: UserId, device: DeviceId): nat {
    |Filter(keys.keys, slot => Available(keys, user, device, slot))|
  }

  /** `InMemorySignalPersistence`. */
  class SignalPersistence {
    var bundles: Bundles
    var oneTimePreKeys: Keys

    constructor ()
      ensures bundles == map[] && oneTimePreKeys == Empty()
    {
      bundles := map[];
      oneTimePreKeys := Empty();
    }

    method Upload(bundle: Bundle, keys: seq<UploadedKey>)
      modifies this
      ensures bundles == old(bundles)[(bundle.userId, bundle.deviceId) := bundle]
      ensures oneTimePreKeys == Stored(old(oneTimePreKeys), bundle.userId, bundle.deviceId, keys)
    {
      bundles := bundles[(bundle.userId, bundle.deviceId) := bundle];
      for i := 0 to |keys|
        invariant bundles == old(bundles)[(bundle.userId, bundle.deviceId) := bundle]
        invariant oneTimePreKeys == Stored(old(oneTimePreKeys), bundle.userId, bundle.deviceId, keys[..i])
      {
        assert keys[..i + 1][..i] == keys[..i];
        oneTimePreKeys := oneTimePreKeys.Set(Slot(bundle.userId, bundle.deviceId, keys[i].keyId), PreKey(keys[i].publicKey, false));
      }
      assert keys[..|keys|] == keys;
    }

    method TakeBundle(user: UserId, device: DeviceId) returns (taken: Option<Taken>)
      modifies this
      ensures bundles == old(bundles)
      ensures (oneTimePreKeys, taken) == Take(old(bundles), old(oneTimePreKeys), user, device)
    {
      if (user, device) !in bundles {
        return None;
      }
      var bundle := bundles[(user, device)];
      var found := FirstAvailable(oneTimePreKeys, user, device);
      if found.Some? {
        var slot := found.value;
        var key := oneTimePreKeys.vals[slot];
        oneTimePreKeys := oneTimePreKeys.Set(slot, key.(consumed := true));
        return Some(Taken(bundle, Some(UploadedKey(slot.keyId, key.publicKey))));
      }
      return Some(Taken(bundle, None));
    }

    method Consume(user: UserId, device: DeviceId, keyId: KeyId) returns (outcome: Consumption)
      modifies this
      ensures bundles == old(bundles)
      ensures (oneTimePreKeys, outcome) == ConsumeKey(old(oneTimePreKeys), Slot(user, device, keyId))
    {
      var slot := Slot(user, device, keyId);
      if slot !in oneTimePreKeys.vals {
        return Missing;
      }
      var key := oneTimePreKeys.vals[slot];
      if key.consumed {
        return Used;
      }
      oneTimePreKeys := oneTimePreKeys.Set(slot, key.(consumed := true));
      return Consumed;
    }
  }

  function Take(bundles: Bundles, keys: Keys, user: UserId, device: DeviceId): (Keys, Option<Taken>) {
    if (user, device) !in bundles then (keys, None)
    else
      var bundle := bundles[(user, device)];
      match FirstAvailable(keys, user, device)
      case Some(slot) => (Spend(keys, slot), Some(Taken(bundle, Some(UploadedKey(slot.keyId, keys.vals[slot].publicKey)))))
      case None => (keys, Some(Taken(bundle, None)))
  }

  function ConsumeKey(keys: Keys, slot: Slot): (Keys, Consumption) {
    if slot !in keys.vals then (keys, Missing)
    else if keys.vals[slot].consumed then (keys, Used)
    else (Spend(keys, slot), Consumed)
  }

  // ---------------------------------------------------------------- one call

  lemma {:induction false} FilterLosesOne<T(!new)>(s: seq<T>, p: T -> bool, q: T -> bool, x: T)
    requires Distinct(s) && x in s && p(x) && !q(x)
    requires forall y :: y in s && y != x ==> (p(y) <==> q(y))
    ensures |Filter(s, q)| == |Filter(s, p)| - 1
  {
    assert s == [s[0]] + s[1..];
    if s[0] == x {
      FilterSame(s[1..], p, q);
    } else {
      FilterLosesOne(s[1..], p, q, x);
    }
  }

  lemma {:induction false} FilterSame<T(!new)>(s: seq<T>, p: T -> bool, q: T -> bool)
    requires forall y :: y in s ==> (p(y) <==> q(y))
    ensures Filter(s, q) == Filter(s, p)
  {
    if s != [] {
      assert s == [s[0]] + s[1..];
      FilterSame(s[1..], p, q);
    }
  }

  /** Fetching a bundle yields a one-time key exactly when the bundle exists and one is available; then the
      device's count drops by exactly one, and every other device keeps its count. */
  lemma TakeBundleSpendsOne(bundles: Bundles, keys: Keys, user: UserId, device: DeviceId)
    requires keys.Valid()
    ensures var (keys', taken) := Take(bundles, keys, user, device);
      var gives := taken.Some? && taken.value.oneTimeKey.Some?;
      && (gives <==> (user, device) in bundles && Count(keys, user, device) > 0)
      && Count(keys', user, device) == Count(keys, user, device) - (if gives then 1 else 0)
      && (forall u, d :: (u, d) != (user, device) ==> Count(keys', u, d) == Count(keys, u, d))
      && (gives ==>
            var key := taken.value.oneTimeKey.value;
            var slot := Slot(user, device, key.keyId);
            Available(keys, user, device, slot) && key.publicKey == keys.vals[slot].publicKey && keys' == Spend(keys, slot))
  {
    var found := FirstAvailable(keys, user, device);
    if found.Some? {
      assert found.value in Filter(keys.keys, slot => Available(keys, user, device, slot));
      assert Available(keys, user, device, found.value);
      SpendCounts(keys, found.value);
    } else {
      FilterEmpty(keys.keys, slot => Available(keys, user, device, slot));
    }
  }

  /** Every key but this one stays as it is, and this one changes only in being consumed. */
  ghost predicate OnlyConsumes(keys: Keys, keys': Keys, slot: Slot) {
    && keys'.keys == keys.keys && slot in keys.vals && keys'.vals.Keys == keys.vals.Keys
    && keys'.vals[slot] == PreKey(keys.vals[slot].publicKey, true)
    && (forall x :: x in keys.vals && x != slot ==> keys'.vals[x] == keys.vals[x])
  }

  /** A bundle is answered exactly when the device has one, and it is that one; the one-time key that comes with it is the first of the
      device's that is not consumed, in the order their ids were first uploaded, and nothing else is consumed. */
  lemma {:induction false} TakeBundleGivesTheFirst(bundles: Bundles, keys: Keys, user: UserId, device: DeviceId)
    requires keys.Valid()
    ensures var (keys', taken) := Take(bundles, keys, user, device);
      && (taken.Some? <==> (user, device) in bundles)
      && (taken.Some? ==> taken.value.bundle == bundles[(user, device)])
      && (taken.Some? && taken.value.oneTimeKey.Some? ==>
            var slot := Slot(user, device, taken.value.oneTimeKey.value.keyId);
            && OnlyConsumes(keys, keys', slot) && !keys.vals[slot].consumed
            && taken.value.oneTimeKey.value.publicKey == keys.vals[slot].publicKey
            && (exists i :: 0 <= i < |keys.keys| && keys.keys[i] == slot
                  && forall j :: 0 <= j < i ==> !Available(keys, user, device, keys.keys[j])))
      && (taken.None? || taken.value.oneTimeKey.None? ==> keys' == keys)
  {
    FindFirstIsFirst(keys.keys, (slot: Slot) => Available(keys, user, device, slot));
    var found := FirstAvailable(keys, user, device);
    if found.Some? {
      assert Available(keys, user, device, found.value);
    }
  }

  /** Consuming a key by name: missing, used, or consumed now; only the last changes anything. */
  lemma ConsumeIs(keys: Keys, slot: Slot)
    ensures var (keys', outcome) := ConsumeKey(keys, slot);
      && (outcome == Missing <==> slot !in keys.vals)
      && (outcome == Used <==> slot in keys.vals && keys.vals[slot].consumed)
      && (outcome == Consumed ==> OnlyConsumes(keys, keys', slot))
      && (outcome != Consumed ==> keys' == keys)
  {
  }

  /** After an upload a key is there under its id, not consumed; of several with one id, the last.  Other keys stay. */
  lemma {:induction false} UploadedIsAvailable(
      keys: Keys, user: UserId, device: DeviceId, uploaded: seq<UploadedKey>, i: nat)
    requires i < |uploaded| && forall j :: i < j < |uploaded| ==> uploaded[j].keyId != uploaded[i].keyId
    ensures var slot := Slot(user, device, uploaded[i].keyId);
      Stored(keys, user, device, uploaded).Get(slot) == Some(PreKey(uploaded[i].publicKey, false))
  {
    var n := |uploaded| - 1;
    if i < n {
      UploadedIsAvailable(keys, user, device, uploaded[..n], i);
    }
  }

  lemma SpendCounts(keys: Keys, slot: Slot)
    requires keys.Valid() && slot in keys.vals && !keys.vals[slot].consumed
    ensures Count(Spend(keys, slot), slot.user, slot.device) == Count(keys, slot.user, slot.device) - 1
    ensures forall u, d :: (u, d) != (slot.user, slot.device) ==> Count(Spend(keys, slot), u, d) == Count(keys, u, d)
  {
    var keys' := Spend(keys, slot);
    assert keys'.keys == keys.keys;
    FilterLosesOne(keys.keys, s => Available(keys, slot.user, slot.device, s), s => Available(keys', slot.user, slot.device, s), slot);
    forall u, d | (u, d) != (slot.user, slot.device)
      ensures Count(keys', u, d) == Count(keys, u, d)
    {
      FilterSame(keys.keys, s => Available(keys, u, d, s), s => Available(keys', u, d, s));
    }
  }

  // ---------------------------------------------------------------- whole runs

  datatype State = State(bundles: Bundles, keys: Keys)
  datatype Op =
    | UploadOp(bundle: Bundle, uploaded: seq<UploadedKey>)
    | TakeOp(user: UserId, device: DeviceId)
    | ConsumeOp(slot: Slot)

  function Next(s: State, op: Op): State {
    match op
    case UploadOp(b, ks) => State(s.bundles[(b.userId, b.deviceId) := b], Stored(s.keys, b.userId, b.deviceId, ks))
    case TakeOp(u, d) => s.(keys := Take(s.bundles, s.keys, u, d).0)
    case ConsumeOp(slot) => s.(keys := ConsumeKey(s.keys, slot).0)
  }

  /** The slot whose key the operation hands out, by `takeBundle` or by a successful `consume`. */
  function HandsOut(s: State, op: Op): Option<Slot> {
    match op
    case UploadOp(_, _) => None
    case TakeOp(u, d) =>
      var taken := Take(s.bundles, s.keys, u, d).1;
      if taken.Some? && taken.value.oneTimeKey.Some? then Some(Slot(u, d, taken.value.oneTimeKey.value.keyId)) else None
    case ConsumeOp(slot) => if ConsumeKey(s.keys, slot).1 == Consumed then Some(slot) else None
  }

  ghost predicate Uploads(op: Op, slot: Slot) {
    op.UploadOp? && slot.user == op.bundle.userId && slot.device == op.bundle.deviceId
    && exists k :: k in op.uploaded && k.keyId == slot.keyId
  }

  function RunTo(s: State, ops: seq<Op>): State {
    if ops == [] then s else Next(RunTo(s, ops[..|ops| - 1]), ops[|ops| - 1])
  }

  ghost predicate Spent(s: State, slot: Slot) {
    slot in s.keys.vals && s.keys.vals[slot].consumed
  }

  lemma {:induction false} StoredSlots(keys: Keys, user: UserId, device: DeviceId, uploaded: seq<UploadedKey>, slot: Slot)
    requires !(slot.user == user && slot.device == device && exists k :: k in uploaded && k.keyId == slot.keyId)
    ensures slot in Stored(keys, user, device, uploaded).vals <==> slot in keys.vals
    ensures slot in keys.vals ==> Stored(keys, user, device, uploaded).vals[slot] == keys.vals[slot]
  {
    if uploaded != [] {
      var n := |uploaded| - 1;
      StoredSlots(keys, user, device, uploaded[..n], slot);
      assert uploaded[n] in uploaded;
    }
  }

  /** A step hands out only unspent keys, marks what it hands out, and unmarks only what it uploads. */
  lemma StepSpends(s: State, op: Op, slot: Slot)
    ensures HandsOut(s, op) == Some(slot) ==> !Spent(s, slot) && Spent(Next(s, op), slot)
    ensures Spent(s, slot) && !Uploads(op, slot) ==> Spent(Next(s, op), slot)
  {
    if op.UploadOp? && !Uploads(op, slot) {
      StoredSlots(s.keys, op.bundle.userId, op.bundle.deviceId, op.uploaded, slot);
    }
  }

  lemma {:induction false} SpentUntilUploaded(s: State, ops: seq<Op>, i: nat, j: nat, slot: Slot)
    requires i <= j <= |ops| && Spent(RunTo(s, ops[..i]), slot)
    requires forall m :: i <= m < j ==> !Uploads(ops[m], slot)
    ensures Spent(RunTo(s, ops[..j]), slot)
  {
    hide Next, Spent, Uploads;
    if i < j {
      SpentUntilUploaded(s, ops, i, j - 1, slot);
      assert ops[..j][..j - 1] == ops[..j - 1];
      StepSpends(RunTo(s, ops[..j - 1]), ops[j - 1], slot);
    }
  }

  /** Over every run, a key handed out twice was uploaded again in between. */
  lemma {:induction false} HandedOutOncePerUpload(s: State, ops: seq<Op>, i: nat, j: nat, slot: Slot)
    requires i < j < |ops|
    requires HandsOut(RunTo(s, ops[..i]), ops[i]) == Some(slot)
    requires HandsOut(RunTo(s, ops[..j]), ops[j]) == Some(slot)
    ensures exists m :: i < m < j && Uploads(ops[m], slot)
  {
    if forall m :: i < m < j ==> !Uploads(ops[m], slot) {
      StepSpends(RunTo(s, ops[..i]), ops[i], slot);
      assert ops[..i + 1][..i] == ops[..i];
      SpentUntilUploaded(s, ops, i + 1, j, slot);
      StepSpends(RunTo(s, ops[..j]), ops[j], slot);
      assert false;
    }
  }
}
