/** The property bags that go out with a remote attestation request and come back when the
    peer has been verified: they are all the delegator has to find its way back by. */
module RaProperties {
  import opened Types
  import opened SymbolicCrypto

  /** What a property can hold; base64 is an injective wrapper around a key. */
  datatype Value =
    | Word(text: string)
    | TaskId(task: Id)
    | Base64(pub: RsaPublic)
    | DeploymentId(deployment: nat)

  datatype Property = Property(key: string, value: Value)

  type Bag = map<string, Value>

  const PROPERTY_TASK_ID := "task_id"
  const PROPERTY_RSA_PUB_KEY := "rsa_pub_key"
  const PROPERTY_DEPLOYMENT_ID := "deployment_id"
  const KEY_GEN_TARGET_ROLE := "delegator_ra_target_role"
  const SIGN_TARGET_ROLE := "delegator_sign_ra_target_role"
  const KEY_GEN_FLAG := "task_delegator_key_gen_flag"
  const SIGN_FLAG := "task_delegator_sign_flag"
  const VALUE_EXECUTOR := Word("executor")
  const VALUE_INITIAL_PINNER := Word("initial_pinner")
  const VALUE_PINNER := Word("pinner")
  const BINDING_NAME := Word("tea_gluon")

  /** Whom an attestation is for. */
  datatype Role =
    | KeyGenExecutor(task: Value, pub: RsaPublic)
    | KeyGenPinner(task: Value, pub: RsaPublic)
    | SignExecutor(task: Value, pub: RsaPublic)
    | SignPinner(task: Value, deployment: Value)

  /** What a delegator asks pinners to bring back. */
  function PinnerBag(task: Value): Bag {
    map[PROPERTY_TASK_ID := task, SIGN_TARGET_ROLE := VALUE_PINNER, SIGN_FLAG := BINDING_NAME]
  }

  /** The properties that belong to a role. The deployment id of a pinner is added by the
      pinner actor. */
  function BagOf(role: Role): Bag {
    match role
    case KeyGenExecutor(task, pub) =>
      map[PROPERTY_TASK_ID := task, PROPERTY_RSA_PUB_KEY := Base64(pub),
          KEY_GEN_TARGET_ROLE := VALUE_EXECUTOR, KEY_GEN_FLAG := BINDING_NAME]
    case KeyGenPinner(task, pub) =>
      map[PROPERTY_TASK_ID := task, PROPERTY_RSA_PUB_KEY := Base64(pub),
          KEY_GEN_TARGET_ROLE := VALUE_INITIAL_PINNER, KEY_GEN_FLAG := BINDING_NAME]
    case SignExecutor(task, pub) =>
      map[PROPERTY_TASK_ID := task, PROPERTY_RSA_PUB_KEY := Base64(pub),
          SIGN_TARGET_ROLE := VALUE_EXECUTOR, SIGN_FLAG := BINDING_NAME]
    case SignPinner(task, deployment) =>
      PinnerBag(task)[PROPERTY_DEPLOYMENT_ID := deployment]
  }

  method TagForKeyGen(settings: Bag) returns (tagged: Bag)
    ensures tagged == settings[KEY_GEN_FLAG := BINDING_NAME]
  {
    tagged := settings[KEY_GEN_FLAG := BINDING_NAME];
  }

  method TagForSign(settings: Bag) returns (tagged: Bag)
    ensures tagged == settings[SIGN_FLAG := BINDING_NAME]
  {
    tagged := settings[SIGN_FLAG := BINDING_NAME];
  }

  /** `remote_attestation_executor` and `remote_attestation_initial_pinner`. */
  method KeyGenAttestation(task: Value, pub: RsaPublic, executor: bool) returns (properties: Bag)
    ensures properties == BagOf(if executor then KeyGenExecutor(task, pub) else KeyGenPinner(task, pub))
  {
    properties := map[];
    properties := properties[PROPERTY_TASK_ID := task];
    properties := properties[PROPERTY_RSA_PUB_KEY := Base64(pub)];
    properties := properties[KEY_GEN_TARGET_ROLE := if executor then VALUE_EXECUTOR else VALUE_INITIAL_PINNER];
    properties := TagForKeyGen(properties);
  }

  /** `remote_attestation_executor` of signing. */
  method SignAttestation(task: Value, pub: RsaPublic) returns (properties: Bag)
    ensures properties == BagOf(SignExecutor(task, pub))
  {
    properties := map[];
    properties := properties[PROPERTY_TASK_ID := task];
    properties := properties[PROPERTY_RSA_PUB_KEY := Base64(pub)];
    properties := properties[SIGN_TARGET_ROLE := VALUE_EXECUTOR];
    properties := TagForSign(properties);
  }

  /** `generate_pinner_ra_properties`. */
  method PinnerProperties(task: Value) returns (properties: Bag)
    ensures properties == PinnerBag(task)
    ensures forall d :: properties[PROPERTY_DEPLOYMENT_ID := d] == BagOf(SignPinner(task, d))
  {
    properties := map[];
    properties := properties[PROPERTY_TASK_ID := task];
    properties := properties[SIGN_TARGET_ROLE := VALUE_PINNER];
    properties := TagForSign(properties);
  }

  // ---------------------------------------------------------------- lists

  /** The bag as a list, in the order in which the map happens to be walked. */
  function Flattened(order: seq<string>, items: Bag): (r: seq<Property>)
    requires forall key :: key in order ==> key in items
  {
    seq(|order|, i requires 0 <= i < |order| => (assert order[i] in order; Property(order[i], items[order[i]])))
  }

  /** `from_hash_map`. */
  method FromHashMap(items: Bag, order: seq<string>) returns (properties: seq<Property>)
    requires IsOrderOf(order, items.Keys)
    ensures forall key :: key in order ==> key in items
    ensures properties == Flattened(order, items)
  {
    forall key | key in order ensures key in items { assert key in Elements(order); }
    properties := [];
    for i := 0 to |order|
      invariant properties == Flattened(order, items)[..i]
    {
      assert order[i] in order;
      properties := properties + [Property(order[i], items[order[i]])];
    }
  }

  /** The first property of that name. */
  function Find(properties: seq<Property>, key: string): Option<Value> {
    if properties == [] then None
    else if properties[0].key == key then Some(properties[0].value)
    else Find(properties[1..], key)
  }

  /** In whatever order a bag is flattened, its properties are found in it. */
  lemma {:induction false} FindInFlattened(order: seq<string>, items: Bag, key: string)
    requires forall x :: x in order ==> x in items
    ensures Find(Flattened(order, items), key) == if key in order then Some(items[key]) else None
  {
    if order != [] {
      assert order[0] in order && forall x :: x in order[1..] ==> x in order;
      FindInFlattened(order[1..], items, key);
      assert Flattened(order, items)[1..] == Flattened(order[1..], items);
    }
  }

  // ---------------------------------------------------------------- dispatch

  /** Whom the after-verify handler takes the properties to: a role, nobody, or an error
      for a property that is missing or cannot be decoded. */
  datatype Dispatched = Reached(role: Role) | Nobody | Refused

  predicate Says(properties: seq<Property>, key: string, value: Value) {
    Find(properties, key) == Some(value)
  }

  function KeyFrom(properties: seq<Property>): Option<RsaPublic> {
    match Find(properties, PROPERTY_RSA_PUB_KEY)
    case Some(Base64(pub)) => Some(pub)
    case _ => None
  }

  function KeyGenAfterVerify(properties: seq<Property>): Dispatched {
    match (Find(properties, PROPERTY_TASK_ID), KeyFrom(properties))
    case (Some(task), Some(pub)) =>
      if Says(properties, KEY_GEN_TARGET_ROLE, VALUE_EXECUTOR) then Reached(KeyGenExecutor(task, pub))
      else if Says(properties, KEY_GEN_TARGET_ROLE, VALUE_INITIAL_PINNER) then Reached(KeyGenPinner(task, pub))
      else Nobody
    case _ => Refused
  }

  function SignAfterVerify(properties: seq<Property>): Dispatched {
    match Find(properties, PROPERTY_TASK_ID)
    case None => Refused
    case Some(task) =>
      if Says(properties, SIGN_TARGET_ROLE, VALUE_EXECUTOR) then
        match KeyFrom(properties)
        case Some(pub) => Reached(SignExecutor(task, pub))
        case None => Refused
      else if Says(properties, SIGN_TARGET_ROLE, VALUE_PINNER) then
        match Find(properties, PROPERTY_DEPLOYMENT_ID)
        case Some(d) => Reached(SignPinner(task, d))
        case None => Refused
      else Nobody
  }

  /** `pinner_client_operation_after_verify`. */
  function AfterVerify(properties: seq<Property>): Dispatched {
    if Says(properties, KEY_GEN_FLAG, BINDING_NAME) then KeyGenAfterVerify(properties)
    else if Says(properties, SIGN_FLAG, BINDING_NAME) then SignAfterVerify(properties)
    else Nobody
  }

  lemma NamesApart()
    ensures PROPERTY_TASK_ID !in {PROPERTY_RSA_PUB_KEY, PROPERTY_DEPLOYMENT_ID, KEY_GEN_TARGET_ROLE, SIGN_TARGET_ROLE, KEY_GEN_FLAG, SIGN_FLAG}
    ensures PROPERTY_RSA_PUB_KEY !in {PROPERTY_DEPLOYMENT_ID, KEY_GEN_TARGET_ROLE, SIGN_TARGET_ROLE, KEY_GEN_FLAG, SIGN_FLAG}
    ensures PROPERTY_DEPLOYMENT_ID !in {KEY_GEN_TARGET_ROLE, SIGN_TARGET_ROLE, KEY_GEN_FLAG, SIGN_FLAG}
    ensures KEY_GEN_TARGET_ROLE !in {SIGN_TARGET_ROLE, KEY_GEN_FLAG, SIGN_FLAG}
    ensures SIGN_TARGET_ROLE !in {KEY_GEN_FLAG, SIGN_FLAG} && KEY_GEN_FLAG != SIGN_FLAG
    ensures VALUE_EXECUTOR != VALUE_INITIAL_PINNER && VALUE_EXECUTOR != VALUE_PINNER
  {
    assert |PROPERTY_TASK_ID| == 7 && |PROPERTY_RSA_PUB_KEY| == 11 && |PROPERTY_DEPLOYMENT_ID| == 13;
    assert |KEY_GEN_TARGET_ROLE| == 24 && |SIGN_TARGET_ROLE| == 29 && |KEY_GEN_FLAG| == 27 && |SIGN_FLAG| == 24;
    assert KEY_GEN_TARGET_ROLE[0] != SIGN_FLAG[0];
    assert |VALUE_EXECUTOR.text| == 8 && |VALUE_INITIAL_PINNER.text| == 14 && |VALUE_PINNER.text| == 6;
  }

  /** What a handler finds under a name in the bag of a role. */
  ghost function Held(role: Role, key: string): Option<Value> {
    if key in BagOf(role) then Some(BagOf(role)[key]) else None
  }

  lemma FindHeld(role: Role, order: seq<string>, key: string)
    requires IsOrderOf(order, BagOf(role).Keys)
    ensures forall x :: x in order ==> x in BagOf(role)
    ensures Find(Flattened(order, BagOf(role)), key) == Held(role, key)
  {
    forall x ensures x in order <==> x in BagOf(role) { assert x in Elements(order) <==> x in order; }
    FindInFlattened(order, BagOf(role), key);
  }

  lemma HeldByRole(role: Role)
    ensures Held(role, PROPERTY_TASK_ID) == Some(role.task)
    ensures Held(role, PROPERTY_RSA_PUB_KEY) == if role.SignPinner? then None else Some(Base64(role.pub))
    ensures Held(role, PROPERTY_DEPLOYMENT_ID) == if role.SignPinner? then Some(role.deployment) else None
    ensures Held(role, KEY_GEN_FLAG) == if role.KeyGenExecutor? || role.KeyGenPinner? then Some(BINDING_NAME) else None
    ensures Held(role, SIGN_FLAG) == if role.SignExecutor? || role.SignPinner? then Some(BINDING_NAME) else None
    ensures Held(role, KEY_GEN_TARGET_ROLE) ==
      match role
      case KeyGenExecutor(_, _) => Some(VALUE_EXECUTOR)
      case KeyGenPinner(_, _) => Some(VALUE_INITIAL_PINNER)
      case _ => None
    ensures Held(role, SIGN_TARGET_ROLE) ==
      match role
      case SignExecutor(_, _) => Some(VALUE_EXECUTOR)
      case SignPinner(_, _) => Some(VALUE_PINNER)
      case _ => None
  {
    NamesApart();
  }

  /** Round trip: the bag of a role, flattened in any order, leads back to that very role
      with its task id and its key or deployment, and carries the flag of no other
      protocol. */
  lemma RoleRoundTrip(role: Role, order: seq<string>)
    requires IsOrderOf(order, BagOf(role).Keys)
    ensures forall key :: key in order ==> key in BagOf(role)
    ensures AfterVerify(Flattened(order, BagOf(role))) == Reached(role)
    ensures Says(Flattened(order, BagOf(role)), KEY_GEN_FLAG, BINDING_NAME)
        <==> role.KeyGenExecutor? || role.KeyGenPinner?
    ensures Says(Flattened(order, BagOf(role)), SIGN_FLAG, BINDING_NAME)
        <==> role.SignExecutor? || role.SignPinner?
  {
    FindHeld(role, order, KEY_GEN_FLAG);
    FindHeld(role, order, SIGN_FLAG);
    FindHeld(role, order, PROPERTY_TASK_ID);
    FindHeld(role, order, PROPERTY_RSA_PUB_KEY);
    FindHeld(role, order, PROPERTY_DEPLOYMENT_ID);
    FindHeld(role, order, KEY_GEN_TARGET_ROLE);
    FindHeld(role, order, SIGN_TARGET_ROLE);
    HeldByRole(role);
    NamesApart();
  }

  /** What comes back of a role when its bag was flattened in some order. */
  function Returned(role: Role, order: seq<string>): Dispatched {
    if forall key :: key in order ==> key in BagOf(role) then AfterVerify(Flattened(order, BagOf(role))) else Nobody
  }

  lemma ReturnedIsRole(role: Role, order: seq<string>)
    requires IsOrderOf(order, BagOf(role).Keys)
    ensures Returned(role, order) == Reached(role)
  {
    RoleRoundTrip(role, order);
  }

  /** So different roles are never taken for each other, whatever the orders. */
  lemma RolesApart(a: Role, b: Role, orderA: seq<string>, orderB: seq<string>)
    requires IsOrderOf(orderA, BagOf(a).Keys) && IsOrderOf(orderB, BagOf(b).Keys) && a != b
    ensures forall key :: key in orderA ==> key in BagOf(a)
    ensures forall key :: key in orderB ==> key in BagOf(b)
    ensures AfterVerify(Flattened(orderA, BagOf(a))) != AfterVerify(Flattened(orderB, BagOf(b)))
  {
    RoleRoundTrip(a, orderA);
    RoleRoundTrip(b, orderB);
  }
}
