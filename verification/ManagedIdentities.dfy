/**
  Which managed identities a reconciliation pass renews and which services depend on each
  (apps/config-app/src/main.rs, `managed_identity_renewal_targets` and its helpers).
  `trim` stands for Rust's whitespace trimming.
  */
module ManagedIdentities {
  import opened Wrappers
  import opened StableSort
  import opened Text

  datatype Identity = Identity(id: string, file: string)

  datatype Instance = Instance(id: string, enabled: bool, identityId: Option<string>, identityFile: Option<string>)

  datatype Store = Store(
    identities: seq<Identity>,
    clientCli: seq<Instance>,
    osIntegration: seq<Instance>,
    folderAgent: seq<Instance>)

  const CLIENT_CLI := "client-cli"
  const OS_INTEGRATION := "os-integration"
  const FOLDER_AGENT := "folder-agent"

  datatype Service = Service(kind: string, id: string)

  datatype Selection = EnabledLaunch | OneService(service: Service) | OneIdentity(id: string)

  datatype Target = Target(identity: Identity, dependents: seq<Service>)

  function InstancesOf(store: Store, kind: string): seq<Instance> {
    if kind == CLIENT_CLI then store.clientCli
    else if kind == OS_INTEGRATION then store.osIntegration
    else if kind == FOLDER_AGENT then store.folderAgent
    else []
  }

  function FindIdentity(identities: seq<Identity>, id: string): (r: Option<Identity>)
    ensures r.Some? ==> exists k :: 0 <= k < |identities| && identities[k] == r.value && r.value.id == id
                                    && forall i :: 0 <= i < k ==> identities[i].id != id
    ensures r.None? ==> forall i :: 0 <= i < |identities| ==> identities[i].id != id
  {
    if identities == [] then None
    else if identities[0].id == id then Some(identities[0])
    else FindIdentity(identities[1..], id)
  }

  function FindByFile(trim: string -> string, identities: seq<Identity>, file: string): (r: Option<Identity>)
    ensures r.Some? ==> exists k :: 0 <= k < |identities| && identities[k] == r.value && trim(r.value.file) == file
                                    && forall i :: 0 <= i < k ==> trim(identities[i].file) != file
    ensures r.None? ==> forall i :: 0 <= i < |identities| ==> trim(identities[i].file) != file
  {
    if identities == [] then None
    else if trim(identities[0].file) == file then Some(identities[0])
    else FindByFile(trim, identities[1..], file)
  }

  function FindInstance(instances: seq<Instance>, id: string): (r: Option<Instance>)
    ensures r.Some? ==> exists k :: 0 <= k < |instances| && instances[k] == r.value && r.value.id == id
                                    && forall i :: 0 <= i < k ==> instances[i].id != id
    ensures r.None? ==> forall i :: 0 <= i < |instances| ==> instances[i].id != id
  {
    if instances == [] then None
    else if instances[0].id == id then Some(instances[0])
    else FindInstance(instances[1..], id)
  }

  /** `normalized_optional_str` */
  function Normalized(trim: string -> string, value: Option<string>): Option<string> {
    if value.Some? && trim(value.value) != "" then Some(trim(value.value)) else None
  }

  /** `resolved_managed_identity_id`: by id when that names an identity, otherwise by file. */
  function Resolve(trim: string -> string, store: Store, instance: Instance): (r: Option<string>)
    ensures r.Some? ==> FindIdentity(store.identities, r.value).Some?
  {
    var id := Normalized(trim, instance.identityId);
    if id.Some? && FindIdentity(store.identities, id.value).Some? then id
    else
      var file := Normalized(trim, instance.identityFile);
      if file.None? then None
      else
        var found := FindByFile(trim, store.identities, file.value);
        if found.Some? then Some(found.value.id) else None
  }

  /** The instance names a stored identity by a non-blank id. */
  ghost predicate NamesStored(trim: string -> string, store: Store, instance: Instance, id: string) {
    && instance.identityId.Some? && trim(instance.identityId.value) == id && id != ""
    && exists k :: 0 <= k < |store.identities| && store.identities[k].id == id
  }

  /** The stored identity at `k` is the first whose file is the instance's, up to trimming. */
  ghost predicate FirstWithFile(trim: string -> string, store: Store, instance: Instance, k: int) {
    && instance.identityFile.Some? && trim(instance.identityFile.value) != ""
    && 0 <= k < |store.identities| && trim(store.identities[k].file) == trim(instance.identityFile.value)
    && forall i :: 0 <= i < k ==> trim(store.identities[i].file) != trim(instance.identityFile.value)
  }

  /** An instance resolves to the stored identity it names, otherwise to the first with its file, otherwise to none. */
  lemma ResolveIff(trim: string -> string, store: Store, instance: Instance, id: string)
    ensures Resolve(trim, store, instance) == Some(id) <==>
            (NamesStored(trim, store, instance, id) ||
             ((forall other :: !NamesStored(trim, store, instance, other)) &&
              exists k :: FirstWithFile(trim, store, instance, k) && store.identities[k].id == id))
  {
    var named := Normalized(trim, instance.identityId);
    if named.Some? && FindIdentity(store.identities, named.value).Some? {
      assert NamesStored(trim, store, instance, named.value);
    } else {
      assert forall other :: !NamesStored(trim, store, instance, other);
      FileFound(trim, store, instance);
    }
  }

  lemma FileFound(trim: string -> string, store: Store, instance: Instance)
    ensures var file := Normalized(trim, instance.identityFile);
            var found := if file.Some? then FindByFile(trim, store.identities, file.value) else None;
            && (found.Some? ==> exists k :: FirstWithFile(trim, store, instance, k) && store.identities[k] == found.value)
            && (forall k :: FirstWithFile(trim, store, instance, k) ==> found == Some(store.identities[k]))
  {
    var file := Normalized(trim, instance.identityFile);
    if file.Some? {
      var found := FindByFile(trim, store.identities, file.value);
      if found.Some? {
        var k :| 0 <= k < |store.identities| && store.identities[k] == found.value
                 && trim(store.identities[k].file) == file.value
                 && forall i :: 0 <= i < k ==> trim(store.identities[i].file) != file.value;
        assert FirstWithFile(trim, store, instance, k);
        forall l | FirstWithFile(trim, store, instance, l) ensures l == k {
          assert !(l < k) && !(k < l);
        }
      }
    }
  }

  // ---------------------------------------------------------------------------
  // Sets in order
  // ---------------------------------------------------------------------------

  /** A multiset of distinct elements comes from a sequence without repetition. */
  lemma DistinctFromMultiset<T>(r: seq<T>, s: set<T>)
    requires multiset(r) == multiset(s)
    ensures NoDuplicates(r) && forall x :: x in r <==> x in s
  {
    forall x ensures x in r <==> x in s {
      assert x in r <==> x in multiset(r);
    }
    CountsDistinct(r);
  }

  /** Iterating a `BTreeSet`: each element once, in order. */
  method InOrder<T(==, !new)>(leq: (T, T) -> bool, s: set<T>) returns (r: seq<T>)
    requires TotalPreorder(leq)
    ensures NoDuplicates(r) && Ordered(leq, r)
    ensures forall x :: x in r <==> x in s
  {
    r := [];
    var rest := s;
    while rest != {}
      invariant rest <= s
      invariant Ordered(leq, r) && multiset(r) == multiset(s - rest)
      decreases |rest|
    {
      var x :| x in rest;
      InsertMultiset(leq, x, r);
      InsertOrdered(leq, x, r);
      r := Insert(leq, x, r);
      assert s - (rest - {x}) == (s - rest) + {x};
      rest := rest - {x};
    }
    assert s - rest == s;
    DistinctFromMultiset(r, s);
  }

  predicate ServiceLeq(a: Service, b: Service) {
    if a.kind == b.kind then TextLeq(a.id, b.id) else TextLeq(a.kind, b.kind)
  }

  lemma ServiceLeqIsTotalPreorder()
    ensures TotalPreorder(ServiceLeq)
  {
    forall a, b ensures ServiceLeq(a, b) || ServiceLeq(b, a) {
      TextLeqTotal(a.kind, b.kind);
      TextLeqTotal(a.id, b.id);
    }
    forall a, b, c | ServiceLeq(a, b) && ServiceLeq(b, c) ensures ServiceLeq(a, c) {
      if a.kind == b.kind && b.kind == c.kind {
        TextLeqTransitive(a.id, b.id, c.id);
      } else if a.kind != b.kind && b.kind != c.kind {
        TextLeqTransitive(a.kind, b.kind, c.kind);
        if a.kind == c.kind {
          TextLeqTotal(a.kind, b.kind);
        }
      }
    }
  }

  lemma TextLeqIsTotalPreorder()
    ensures TotalPreorder(TextLeq)
  {
    forall a, b ensures TextLeq(a, b) || TextLeq(b, a) {
      TextLeqTotal(a, b);
    }
    forall a, b, c | TextLeq(a, b) && TextLeq(b, c) ensures TextLeq(a, c) {
      TextLeqTransitive(a, b, c);
    }
  }

  // ---------------------------------------------------------------------------
  // Dependents
  // ---------------------------------------------------------------------------

  /** Some configured instance of this service resolves to the identity. */
  ghost predicate DependsOn(trim: string -> string, store: Store, service: Service, id: string) {
    exists i :: i in InstancesOf(store, service.kind) && i.id == service.id && Resolve(trim, store, i) == Some(id)
  }

  /** Dependents over the three lists of the store, with the names the services go by. */
  lemma DependsOnIff(trim: string -> string, store: Store, service: Service, id: string)
    ensures DependsOn(trim, store, service, id) <==>
            var list := match service.kind
                        case "client-cli" => store.clientCli
                        case "os-integration" => store.osIntegration
                        case "folder-agent" => store.folderAgent
                        case _ => [];
            exists k :: 0 <= k < |list| && list[k].id == service.id && Resolve(trim, store, list[k]) == Some(id)
  {
    hide Resolve;
    var list := InstancesOf(store, service.kind);
    assert forall i :: i in list <==> exists k :: 0 <= k < |list| && list[k] == i;
  }

  method AddDependents(trim: string -> string, store: Store, kind: string, id: string, services: set<Service>)
    returns (r: set<Service>)
    ensures forall s :: s in r <==> s in services || (s.kind == kind && DependsOn(trim, store, s, id))
  {
    r := services;
    var instances := InstancesOf(store, kind);
    for i := 0 to |instances|
      invariant forall s :: s in r <==>
        (s in services ||
         (s.kind == kind && exists k :: 0 <= k < i && instances[k].id == s.id && Resolve(trim, store, instances[k]) == Some(id)))
    {
      if Resolve(trim, store, instances[i]) == Some(id) {
        r := r + {Service(kind, instances[i].id)};
      }
    }
  }

  /** `dependent_services_for_identity` */
  method DependentServices(trim: string -> string, store: Store, id: string) returns (services: seq<Service>)
    ensures NoDuplicates(services) && Ordered(ServiceLeq, services)
    ensures forall s :: s in services <==> DependsOn(trim, store, s, id)
  {
    var found := AddDependents(trim, store, CLIENT_CLI, id, {});
    found := AddDependents(trim, store, OS_INTEGRATION, id, found);
    found := AddDependents(trim, store, FOLDER_AGENT, id, found);
    ServiceLeqIsTotalPreorder();
    services := InOrder(ServiceLeq, found);
  }

  /** Instances that share a kind and an id also share their identity. */
  ghost predicate OneIdentityPerService(trim: string -> string, store: Store) {
    forall kind, i, j ::
      i in InstancesOf(store, kind) && j in InstancesOf(store, kind) && i.id == j.id
      && Resolve(trim, store, i).Some? && Resolve(trim, store, j).Some?
      ==> Resolve(trim, store, i) == Resolve(trim, store, j)
  }

  predicate UniqueIdsPerKind(store: Store) {
    && (forall a, b :: 0 <= a < b < |store.clientCli| ==> store.clientCli[a].id != store.clientCli[b].id)
    && (forall a, b :: 0 <= a < b < |store.osIntegration| ==> store.osIntegration[a].id != store.osIntegration[b].id)
    && (forall a, b :: 0 <= a < b < |store.folderAgent| ==> store.folderAgent[a].id != store.folderAgent[b].id)
  }

  /** No service depends on two identities exactly when repeated ids never disagree about the identity. */
  lemma DependentsDisjointIff(trim: string -> string, store: Store)
    ensures (forall s, a, b :: DependsOn(trim, store, s, a) && DependsOn(trim, store, s, b) ==> a == b)
       <==> OneIdentityPerService(trim, store)
  {
    if forall s, a, b :: DependsOn(trim, store, s, a) && DependsOn(trim, store, s, b) ==> a == b {
      forall kind, i, j |
        i in InstancesOf(store, kind) && j in InstancesOf(store, kind) && i.id == j.id
        && Resolve(trim, store, i).Some? && Resolve(trim, store, j).Some?
        ensures Resolve(trim, store, i) == Resolve(trim, store, j)
      {
        var s := Service(kind, i.id);
        assert DependsOn(trim, store, s, Resolve(trim, store, i).value);
        assert DependsOn(trim, store, s, Resolve(trim, store, j).value);
      }
    }
  }

  lemma UniqueIdsSuffice(trim: string -> string, store: Store)
    requires UniqueIdsPerKind(store)
    ensures OneIdentityPerService(trim, store)
  {
    hide Resolve;
    forall kind, i, j | i in InstancesOf(store, kind) && j in InstancesOf(store, kind) && i.id == j.id
      ensures i == j
    {
      SameIdSameInstance(InstancesOf(store, kind), i, j);
    }
  }

  lemma SameIdSameInstance(s: seq<Instance>, i: Instance, j: Instance)
    requires forall a, b :: 0 <= a < b < |s| ==> s[a].id != s[b].id
    requires i in s && j in s && i.id == j.id
    ensures i == j
  {
    var a :| 0 <= a < |s| && s[a] == i;
    var b :| 0 <= b < |s| && s[b] == j;
    assert a == b;
  }

  // ---------------------------------------------------------------------------
  // Targets
  // ---------------------------------------------------------------------------

  /** The identity ids a selection asks for. */
  ghost predicate Selected(trim: string -> string, store: Store, selection: Selection, id: string) {
    match selection
    case EnabledLaunch =>
      exists kind, i :: i in InstancesOf(store, kind) && i.enabled && Resolve(trim, store, i) == Some(id)
    case OneService(service) =>
      var i := FindInstance(InstancesOf(store, service.kind), service.id);
      i.Some? && Resolve(trim, store, i.value) == Some(id)
    case OneIdentity(wanted) =>
      id == wanted && FindIdentity(store.identities, wanted).Some?
  }

  method AddEnabled(trim: string -> string, store: Store, kind: string, ids: set<string>) returns (r: set<string>)
    ensures forall id :: id in r <==>
      (id in ids || exists i :: i in InstancesOf(store, kind) && i.enabled && Resolve(trim, store, i) == Some(id))
  {
    r := ids;
    var instances := InstancesOf(store, kind);
    for n := 0 to |instances|
      invariant forall id :: id in r <==>
        (id in ids || exists k :: 0 <= k < n && instances[k].enabled && Resolve(trim, store, instances[k]) == Some(id))
    {
      var id := Resolve(trim, store, instances[n]);
      if instances[n].enabled && id.Some? {
        r := r + {id.value};
      }
    }
  }

  method SelectIds(trim: string -> string, store: Store, selection: Selection) returns (ids: set<string>)
    ensures forall id :: id in ids <==> Selected(trim, store, selection, id)
  {
    ids := {};
    match selection
    case EnabledLaunch =>
      ids := AddEnabled(trim, store, CLIENT_CLI, ids);
      ids := AddEnabled(trim, store, OS_INTEGRATION, ids);
      ids := AddEnabled(trim, store, FOLDER_AGENT, ids);
    case OneService(service) =>
      var instance := FindInstance(InstancesOf(store, service.kind), service.id);
      if instance.Some? && Resolve(trim, store, instance.value).Some? {
        ids := {Resolve(trim, store, instance.value).value};
      }
    case OneIdentity(id) =>
      if FindIdentity(store.identities, id).Some? {
        ids := {id};
      }
  }

  /** A target carries the stored identity and exactly the services that resolve to it. */
  ghost predicate TargetOk(trim: string -> string, store: Store, target: Target) {
    && FindIdentity(store.identities, target.identity.id) == Some(target.identity)
    && NoDuplicates(target.dependents)
    && forall s :: s in target.dependents <==> DependsOn(trim, store, s, target.identity.id)
  }

  /** `managed_identity_renewal_targets` */
  method RenewalTargets(trim: string -> string, store: Store, selection: Selection) returns (targets: seq<Target>)
    ensures forall i, j :: 0 <= i < j < |targets| ==> targets[i].identity.id != targets[j].identity.id
    ensures forall id :: Selected(trim, store, selection, id) <==> exists t :: t in targets && t.identity.id == id
    ensures forall t :: t in targets ==> TargetOk(trim, store, t)
  {
    var ids := SelectIds(trim, store, selection);
    TextLeqIsTotalPreorder();
    var order := InOrder(TextLeq, ids);
    targets := [];
    for n := 0 to |order|
      invariant |targets| == n
      invariant forall k :: 0 <= k < n ==> targets[k].identity.id == order[k] && TargetOk(trim, store, targets[k])
    {
      var identity := FindIdentity(store.identities, order[n]);
      SelectedExists(trim, store, selection, order[n]);
      if identity.Some? {
        var dependents := DependentServices(trim, store, identity.value.id);
        targets := targets + [Target(identity.value, dependents)];
      }
    }
    forall id ensures id in order <==> exists t :: t in targets && t.identity.id == id {
      if id in order {
        var k :| 0 <= k < |order| && order[k] == id;
        assert targets[k] in targets;
      }
    }
  }

  /** Every selected id names a stored identity, so no target is dropped. */
  lemma SelectedExists(trim: string -> string, store: Store, selection: Selection, id: string)
    requires Selected(trim, store, selection, id)
    ensures FindIdentity(store.identities, id).Some?
  {
  }
}
