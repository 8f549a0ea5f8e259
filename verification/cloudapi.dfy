/**
 * The provider's declarative cloud API as the infrastructure service sees it:
 * a store of resources keyed by (kind, project, name), a clock counting the
 * Get/Create/Delete calls issued so far, and an oracle of injected errors
 * indexed by the position a call takes in that count. Every routine hands
 * back the calls it issued, in order.
 *
 * Resources are modelled with the fields the reconcilers write or read
 * (api/v1alpha1/networking and api/v1alpha1/compute).
 */
module CloudApi {
  import opened Errors

  datatype Kind = Vpc | Subnet | PublicIP | Disk | VirtualMachine

  /** A resource's identity: its kind, the project (the namespace) and its name. */
  datatype Key = Key(kind: Kind, project: string, name: string)

  datatype DiskRef = DiskRef(name: string, bootFrom: bool)

  datatype DiskSpec = DiskSpec(imageName: string, sizeAmount: int, sizeUnit: string, storageClass: string)

  /** `sshAuthorizedKeys` is None when no SSH settings are sent;
      `securityGroups` is None when no security-group settings are sent. */
  datatype VMSpec = VMSpec(
    running: bool,
    virtualResourcesRef: string,
    diskRefs: seq<DiskRef>,
    cloudInitUserData: string,
    sshAuthorizedKeys: Option<seq<string>>,
    publicIPRef: string,
    securityGroups: Option<seq<string>>)

  /** The VM's reported lifecycle state and its addresses. */
  datatype VMStatus = VMStatus(state: string, privateIPv4: string, publicIPv4: string)

  datatype Resource =
    | VpcRes
    | SubnetRes(vpcRef: string, cidrBlock: string)
    | PublicIPRes(address: string)
    | DiskRes(disk: DiskSpec)
    | VMRes(spec: VMSpec, status: VMStatus)

  function ResKind(r: Resource): Kind {
    match r
    case VpcRes => Vpc
    case SubnetRes(_, _) => Subnet
    case PublicIPRes(_) => PublicIP
    case DiskRes(_) => Disk
    case VMRes(_, _) => VirtualMachine
  }

  type Store = map<Key, Resource>

  /** The API server keeps each resource under a key of its own kind. */
  predicate WellKinded(store: Store) {
    forall k :: k in store ==> ResKind(store[k]) == k.kind
  }

  /** The status a freshly created VM reports: nothing yet. */
  const NoVMStatus := VMStatus("", "", "")

  datatype Op = Get | Create | Delete

  /** One call against the API and the kind of error it returned (None: nil). */
  datatype Call = Call(op: Op, key: Key, outcome: Option<ErrKind>)

  /** `clock` counts the calls issued so far; `faults[i]` is the error the
      provider returns to call number `i` whatever it asks for. */
  datatype Api = Api(store: Store, clock: nat, faults: map<nat, Error>)

  /** The error the provider injects into the next call, if any. */
  function NextFault(api: Api): Option<Error> {
    if api.clock in api.faults then Some(api.faults[api.clock]) else None
  }

  /** No error is injected into any call still to come. */
  predicate NoFaultsAhead(api: Api) {
    forall i :: i in api.faults ==> i < api.clock
  }

  /** `b` is `a` after the given calls: the same oracle, the clock moved on by one per call. */
  predicate Follows(a: Api, b: Api, calls: seq<Call>) {
    b.faults == a.faults && b.clock == a.clock + |calls|
  }

  function KindName(k: Kind): string {
    match k
    case Vpc => "virtualprivateclouds"
    case Subnet => "subnets"
    case PublicIP => "publicips"
    case Disk => "disks"
    case VirtualMachine => "virtualmachines"
  }

  function NotFoundError(key: Key): Error {
    Error(NotFound, KindName(key.kind) + " \"" + key.name + "\" not found")
  }

  /** The API server's AlreadyExists status, which no classifier helper recognises. */
  function AlreadyExistsError(key: Key): Error {
    Error(Generic, KindName(key.kind) + " \"" + key.name + "\" already exists")
  }

  function KindOf(err: Option<Error>): Option<ErrKind> {
    if err.Some? then Some(err.value.kind) else None
  }

  function ResultKind(res: Result<Resource>): Option<ErrKind> {
    if res.Err? then Some(res.error.kind) else None
  }

  /** The reply to a Get (or a get-or-create): the resource or an error, and the calls issued. */
  datatype Fetched = Fetched(api: Api, res: Result<Resource>, calls: seq<Call>)

  /** The reply to a Create or Delete, or to a whole routine: nil or an error, and the calls issued. */
  datatype Done = Done(api: Api, err: Option<Error>, calls: seq<Call>)

  function Tick(api: Api): Api {
    api.(clock := api.clock + 1)
  }

  function GetResource(api: Api, key: Key): (r: Fetched)
    ensures Follows(api, r.api, r.calls) && r.api.store == api.store
    ensures r.calls == [Call(Get, key, ResultKind(r.res))]
    ensures r.res.Ok? <==> NextFault(api).None? && key in api.store
    ensures r.res.Ok? ==> r.res.value == api.store[key]
    ensures r.res.Err? && NextFault(api).None? ==> r.res.error == NotFoundError(key)
  {
    var err := if NextFault(api).Some? then NextFault(api)
               else if key in api.store then None
               else Some(NotFoundError(key));
    var res := if err.Some? then Err(err.value) else Ok(api.store[key]);
    Fetched(Tick(api), res, [Call(Get, key, ResultKind(res))])
  }

  function CreateResource(api: Api, key: Key, res: Resource): (r: Done)
    ensures Follows(api, r.api, r.calls) && r.calls == [Call(Create, key, KindOf(r.err))]
    ensures r.err.None? <==> NextFault(api).None? && key !in api.store
    ensures r.api.store == if r.err.None? then api.store[key := res] else api.store
  {
    var err := if NextFault(api).Some? then NextFault(api)
               else if key in api.store then Some(AlreadyExistsError(key))
               else None;
    var a := if err.Some? then Tick(api) else Tick(api).(store := api.store[key := res]);
    Done(a, err, [Call(Create, key, KindOf(err))])
  }

  function DeleteResource(api: Api, key: Key): (r: Done)
    ensures Follows(api, r.api, r.calls) && r.calls == [Call(Delete, key, KindOf(r.err))]
    ensures r.err.None? <==> NextFault(api).None? && key in api.store
    ensures r.err.Some? && NextFault(api).None? ==> r.err.value.kind == NotFound
    ensures r.api.store == if r.err.None? then api.store - {key} else api.store
  {
    var err := if NextFault(api).Some? then NextFault(api)
               else if key !in api.store then Some(NotFoundError(key))
               else None;
    var a := if err.Some? then Tick(api) else Tick(api).(store := api.store - {key});
    Done(a, err, [Call(Delete, key, KindOf(err))])
  }

  // ----- Stores -----

  /** Every resource of `a` is still in `b`, unchanged. */
  predicate Grows(a: Store, b: Store) {
    forall k :: k in a ==> k in b && b[k] == a[k]
  }

  lemma GrowsTrans(a: Store, b: Store, c: Store)
    requires Grows(a, b) && Grows(b, c)
    ensures Grows(a, c)
  {
  }

  /** Every key listed is in the store. */
  predicate AllStored(store: Store, keys: seq<Key>) {
    forall k :: k in keys ==> k in store
  }

  /** No key listed is in the store. */
  predicate NoneStored(store: Store, keys: seq<Key>) {
    forall k :: k in keys ==> k !in store
  }

  /** Every resource of `a` not listed in `keys` is still in `b`. */
  predicate KeepsOthers(a: Store, b: Store, keys: seq<Key>) {
    forall k :: k in a && k !in keys ==> k in b
  }

  lemma KeepsOthersTrans(a: Store, b: Store, c: Store, ka: seq<Key>, kb: seq<Key>)
    requires KeepsOthers(a, b, ka) && KeepsOthers(b, c, kb)
    ensures KeepsOthers(a, c, ka + kb)
  {
    forall k | k in a && k !in ka + kb ensures k in c {
      assert k !in ka && k !in kb;
    }
  }

  /** Every resource of `b` that `a` lacks is listed in `keys`. */
  predicate AddsOnly(a: Store, b: Store, keys: seq<Key>) {
    forall k :: k in b && k !in a ==> k in keys
  }

  /** Adding listed keys to a store that lacks them and then removing exactly
      those keys again gives back the original store. */
  lemma AddThenRemove(s0: Store, s1: Store, s2: Store, keys: seq<Key>)
    requires NoneStored(s0, keys)
    requires Grows(s0, s1) && AddsOnly(s0, s1, keys)
    requires Grows(s2, s1) && KeepsOthers(s1, s2, keys) && NoneStored(s2, keys)
    ensures s2 == s0
  {
    forall k | k in s0 ensures k in s2 && s2[k] == s0[k] {
      assert k !in keys;
    }
    forall k | k in s2 ensures k in s0 {
      assert k !in keys;
    }
  }

  // ----- Properties of call sequences -----

  /** The calls touch only the given keys. */
  ghost predicate OnlyKeys(calls: seq<Call>, keys: seq<Key>) {
    forall i :: 0 <= i < |calls| ==> calls[i].key in keys
  }

  /** Only Gets and Creates are issued, and every Create directly follows a Get
      of the same key that reported NotFound. */
  ghost predicate GetsAndCreates(calls: seq<Call>) {
    (forall i :: 0 <= i < |calls| ==> calls[i].op != Delete) &&
    (forall i :: 0 <= i < |calls| && calls[i].op == Create ==>
       0 < i && calls[i - 1] == Call(Get, calls[i].key, Some(NotFound)))
  }

  /** No Create is issued. */
  ghost predicate NoCreates(calls: seq<Call>) {
    forall i :: 0 <= i < |calls| ==> calls[i].op != Create
  }

  /** Only Deletes are issued. */
  ghost predicate OnlyDeletes(calls: seq<Call>) {
    forall i :: 0 <= i < |calls| ==> calls[i].op == Delete
  }

  /** At least one call was issued, and the last one failed. */
  ghost predicate EndsInError(calls: seq<Call>) {
    0 < |calls| && calls[|calls| - 1].outcome.Some?
  }

  /** The keys Get was called for, in order: the resources a routine attempted. */
  function Gets(calls: seq<Call>): (ks: seq<Key>)
    ensures |ks| <= |calls|
  {
    if |calls| == 0 then []
    else (if calls[0].op == Get then [calls[0].key] else []) + Gets(calls[1..])
  }

  /** The keys of all calls, in order. */
  function Keys(calls: seq<Call>): (ks: seq<Key>)
    ensures |ks| == |calls|
    ensures forall i :: 0 <= i < |calls| ==> ks[i] == calls[i].key
  {
    seq(|calls|, i requires 0 <= i < |calls| => calls[i].key)
  }

  // How the properties of two consecutive runs of calls combine.

  lemma {:induction false} GetsAppend(a: seq<Call>, b: seq<Call>)
    ensures Gets(a + b) == Gets(a) + Gets(b)
  {
    if |a| > 0 {
      assert (a + b)[1..] == a[1..] + b;
      GetsAppend(a[1..], b);
    } else {
      assert a + b == b;
    }
  }

  lemma KeysAppend(a: seq<Call>, b: seq<Call>)
    ensures Keys(a + b) == Keys(a) + Keys(b)
  {
    assert forall i :: 0 <= i < |a + b| ==> Keys(a + b)[i] == (Keys(a) + Keys(b))[i];
  }

  /** Prefixes survive a common head. */
  lemma PrefixCons<T>(x: seq<T>, a: seq<T>, b: seq<T>)
    requires a <= b
    ensures x + a <= x + b
  {
    assert (x + b)[..|x + a|] == x + a;
  }

  /** A prefix of `b` is a prefix of `b + c`. */
  lemma PrefixLonger<T>(a: seq<T>, b: seq<T>, c: seq<T>)
    requires a <= b
    ensures a <= b + c
  {
    assert (b + c)[..|a|] == b[..|a|];
  }

  lemma ConcatKeys(a: seq<Call>, b: seq<Call>, ka: seq<Key>, kb: seq<Key>)
    requires OnlyKeys(a, ka) && OnlyKeys(b, kb)
    ensures OnlyKeys(a + b, ka + kb)
  {
    forall i | 0 <= i < |a + b| ensures (a + b)[i].key in ka + kb {
      if i >= |a| { assert (a + b)[i] == b[i - |a|]; }
    }
  }

  lemma ConcatSameKeys(a: seq<Call>, b: seq<Call>, ks: seq<Key>)
    requires OnlyKeys(a, ks) && OnlyKeys(b, ks)
    ensures OnlyKeys(a + b, ks)
  {
    forall i | 0 <= i < |a + b| ensures (a + b)[i].key in ks {
      if i >= |a| { assert (a + b)[i] == b[i - |a|]; }
    }
  }

  lemma ConcatCreates(a: seq<Call>, b: seq<Call>)
    requires GetsAndCreates(a) && GetsAndCreates(b)
    ensures GetsAndCreates(a + b)
  {
    forall i | 0 <= i < |a + b|
      ensures (a + b)[i].op != Delete
      ensures (a + b)[i].op == Create ==> 0 < i && (a + b)[i - 1] == Call(Get, (a + b)[i].key, Some(NotFound))
    {
      if i >= |a| {
        var j := i - |a|;
        assert (a + b)[i] == b[j];
        if (a + b)[i].op == Create {
          assert 0 < j && b[j - 1] == Call(Get, b[j].key, Some(NotFound));
          assert (a + b)[i - 1] == b[j - 1];
        }
      }
    }
  }

  lemma ConcatNoCreates(a: seq<Call>, b: seq<Call>)
    requires NoCreates(a) && NoCreates(b)
    ensures NoCreates(a + b)
  {
    forall i | 0 <= i < |a + b| ensures (a + b)[i].op != Create {
      if i >= |a| { assert (a + b)[i] == b[i - |a|]; }
    }
  }

  lemma ConcatDeletes(a: seq<Call>, b: seq<Call>)
    requires OnlyDeletes(a) && OnlyDeletes(b)
    ensures OnlyDeletes(a + b)
  {
    forall i | 0 <= i < |a + b| ensures (a + b)[i].op == Delete {
      if i >= |a| { assert (a + b)[i] == b[i - |a|]; }
    }
  }

  lemma ConcatError(a: seq<Call>, b: seq<Call>)
    ensures EndsInError(b) ==> EndsInError(a + b)
  {
  }

  lemma ConcatOk(a: seq<Call>, b: seq<Call>)
    ensures 0 < |b| && !EndsInError(b) ==> !EndsInError(a + b)
  {
  }

  // ----- Get-or-create -----

  /**
   * The idempotent get-or-create step every provisioning routine repeats: Get
   * the resource; on NotFound Create `desired`; on any other Get error, or a
   * Create error, fail with the error wrapped in "failed to get/create <what>".
   * On success the resource as observed (stored, or just created) is returned.
   */
  function GetOrCreate(api: Api, key: Key, desired: Resource, what: string): (r: Fetched)
    ensures Follows(api, r.api, r.calls)
    ensures OnlyKeys(r.calls, [key]) && Gets(r.calls) == [key]
    ensures GetsAndCreates(r.calls)
    ensures r.res.Ok? ==> key in r.api.store && r.api.store[key] == r.res.value
    ensures r.res.Ok? && key in api.store ==> r.api.store == api.store
    ensures r.res.Ok? && key !in api.store ==> r.api.store == api.store[key := desired] && r.res.value == desired
    ensures r.res.Ok? ==> Grows(api.store, r.api.store)
    ensures r.res.Err? ==> r.api.store == api.store && EndsInError(r.calls)
    ensures NoFaultsAhead(api) ==> r.res.Ok?
    ensures NoFaultsAhead(api) && key in api.store ==> NoCreates(r.calls)
  {
    var g := GetResource(api, key);
    if g.res.Ok? then g
    else if g.res.error.kind != NotFound then
      Fetched(g.api, Err(Wrap(g.res.error, "failed to get " + what + " " + key.name)), g.calls)
    else
      var c := CreateResource(g.api, key, desired);
      var calls := g.calls + c.calls;
      assert Gets(calls) == [key];
      if c.err.Some? then Fetched(c.api, Err(Wrap(c.err.value, "failed to create " + what + " " + key.name)), calls)
      else Fetched(c.api, Ok(desired), calls)
  }

  /** A successful get-or-create ends with a call that succeeded. */
  lemma GetOrCreateOkLast(api: Api, key: Key, desired: Resource, what: string)
    ensures var r := GetOrCreate(api, key, desired, what);
            r.res.Ok? ==> !EndsInError(r.calls)
  {
  }

  // ----- Tolerant delete -----

  /** A Delete outcome a teardown routine steps over: nil, NotFound (already
      gone), or Forbidden for the kinds in `forbiddenOk` (shared, not ours). */
  predicate DeleteTolerated(outcome: Option<ErrKind>, kind: Kind, forbiddenOk: set<Kind>) {
    outcome.None? || outcome == Some(NotFound) || (outcome == Some(Forbidden) && kind in forbiddenOk)
  }

  /** Every call's outcome was stepped over. */
  ghost predicate AllTolerated(calls: seq<Call>, forbiddenOk: set<Kind>) {
    forall i :: 0 <= i < |calls| ==> DeleteTolerated(calls[i].outcome, calls[i].key.kind, forbiddenOk)
  }

  /** Every call but the last was stepped over, and the last was not. */
  ghost predicate StopsAtLast(calls: seq<Call>, forbiddenOk: set<Kind>) {
    0 < |calls| && AllTolerated(calls[..|calls| - 1], forbiddenOk) &&
    !DeleteTolerated(calls[|calls| - 1].outcome, calls[|calls| - 1].key.kind, forbiddenOk)
  }

  lemma ConcatTolerated(a: seq<Call>, b: seq<Call>, forbiddenOk: set<Kind>)
    requires AllTolerated(a, forbiddenOk)
    ensures AllTolerated(b, forbiddenOk) ==> AllTolerated(a + b, forbiddenOk)
    ensures StopsAtLast(b, forbiddenOk) ==> StopsAtLast(a + b, forbiddenOk)
  {
    if StopsAtLast(b, forbiddenOk) {
      assert (a + b)[..|a + b| - 1] == a + b[..|b| - 1];
    }
  }

  lemma StopsAtLastNotAll(calls: seq<Call>, forbiddenOk: set<Kind>)
    requires StopsAtLast(calls, forbiddenOk)
    ensures !AllTolerated(calls, forbiddenOk)
  {
  }

  /**
   * One step of a teardown: Delete `key`; an outcome the step tolerates counts
   * as success, any other fails with the error wrapped in "failed to delete <what>".
   */
  function DeleteStep(api: Api, key: Key, forbiddenOk: set<Kind>, what: string): (r: Done)
    ensures Follows(api, r.api, r.calls)
    ensures |r.calls| == 1 && r.calls[0].op == Delete && r.calls[0].key == key
    ensures r.err.None? <==> DeleteTolerated(r.calls[0].outcome, key.kind, forbiddenOk)
    ensures r.api.store == api.store - {key} || r.api.store == api.store
    ensures key in r.api.store ==> NextFault(api).Some?
    ensures NoFaultsAhead(api) ==> r.err.None? && r.api.store == api.store - {key}
  {
    var d := DeleteResource(api, key);
    if DeleteTolerated(KindOf(d.err), key.kind, forbiddenOk) then Done(d.api, None, d.calls)
    else Done(d.api, Some(Wrap(d.err.value, "failed to delete " + what + " " + key.name)), d.calls)
  }

  // ----- What the provider does on its own, between reconciliation passes -----

  /** The provider allocates an address to a public IP. */
  function AllocateAddress(api: Api, key: Key, address: string): (r: Api)
    requires key in api.store && api.store[key].PublicIPRes?
    ensures r.clock == api.clock && r.faults == api.faults
    ensures r.store.Keys == api.store.Keys && r.store[key] == PublicIPRes(address)
    ensures forall k :: k in api.store && k != key ==> r.store[k] == api.store[k]
  {
    api.(store := api.store[key := PublicIPRes(address)])
  }

  /** The provider reports a new state for a VM. */
  function ReportVMStatus(api: Api, key: Key, status: VMStatus): (r: Api)
    requires key in api.store && api.store[key].VMRes?
    ensures r.clock == api.clock && r.faults == api.faults
    ensures r.store.Keys == api.store.Keys && r.store[key].VMRes?
    ensures r.store[key].spec == api.store[key].spec && r.store[key].status == status
    ensures forall k :: k in api.store && k != key ==> r.store[k] == api.store[k]
  {
    api.(store := api.store[key := VMRes(api.store[key].spec, status)])
  }
}
